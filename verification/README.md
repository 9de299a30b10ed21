# KeepIQ: routes, SSH agent start, and command line

A Dafny model of four parts of KeepIQ, with proofs about every input, every run
or every URL.

**Routes** (`appinfo/routes.php`). The route table is data: 295 entries over
five verbs, in three layers (the shell block, the domain routes, the fallback),
each entry with the line it stands on and the name it is registered under.
`RoutePatterns` says which URLs a template denotes and matches them segment by
segment; `RouteOverlap` decides whether two templates share a URL and builds
one; `RouteResolution` is first-match resolution. That no two entries overlap is
not checked pair by pair: the table is listed sorted by verb, depth and words,
each neighbouring pair differs first at two literals, and such a list is
pairwise disjoint (`RouteRows`, `RouteListing`, `RouteFacts`). `FileOrder` puts
the sorted entries back into the order of the file. That no two entries share a
name is shown by placing each name in a search tree (`RouteNames`, `RouteKeys`).
`RouteTheorems` says how the merged table resolves.

**The detached start of the SSH agent** (`cli/sshagent_cmd.go`). Processes run
one program, step by step and in any interleaving (`DetachProtocol`); bytes move
through the pipes in pieces of any size, every call may fail, and signals, those
the agent catches and those it does not, may arrive at every point.
`DetachInvariant` and `DetachSafety` hold the invariant, `DetachTheorems` the
safety results, `DetachProgress` the measure and the absence of deadlock,
`DetachOutcome` what a run without failures does. `DetachHistory` lists the
calls the source makes for each command line, and says of every run that each
process has made a beginning of them, in order, stopped at the first that
failed, and holds what they delivered. `Terminals` is the prompt, `Lines` line
reading, `Environment` process environments, `AgentOptions` the flags.

**What is printed for `eval`** (`cli/ci.go`, `cli/sshagent_cmd.go`).
`ShellWords` is a lexer and evaluator for the part of POSIX.1-2017 Shell Command
Language that the text needs (sections 2.2.1, 2.2.2, 2.3, 2.6.1, 2.6.3, 2.9.1,
2.14); any other construct is refused. `CiExport` and `AgentExport` read the
printed text with it.

**Argument parsers, child environment, installation** (`cli/main.go`,
`cli/ci.go`, `cli/install.go`): `PopFlags`, `CiRun`, and `Installs`, a copy loop
over files that may have several names, with every state of the disk recorded.

## Assumptions

- The router takes the first entry that matches; `{p}` without a requirement is
  one or more characters other than `/`; an entry with the name of an earlier
  one replaces it. Whether `.` in a requirement matches a newline is a parameter
  (`dotAll`), and every result holds for both readings.
- os/exec keeps the last entry of an environment for each name. A Go process
  reads the first entry it is given for a name, and os.Environ lists only that
  one.
- A line of the agent or of its starter is written whole or not at all. A
  socket path fits the operating system's limit, so that it fits a pipe too.
- Characters are Unicode scalar values; invalid UTF-8 does not occur.
- File permissions are those asked for: the umask leaves the owner's execute bit.

## Where the code and its words differ

The model follows the code.

- The comment at `appinfo/routes.php:235` says that every GET below `/public/`
  reaches the anonymous shell. `/public/` itself does not: the tail may not be
  empty, and the request falls through to the authenticated fallback
  (`PublicItselfFallsThrough`). Every path strictly below it does
  (`TablePublic`).
- `--idle` takes any nonnegative number, but above 153722867 minutes the product
  with a minute wraps (`IdleExactIff`), and the agent switches its idle lock off
  for every duration that is not positive. Up to the bound only 0 does that, as
  documented (`IdleOffWhenExact`); in general those minutes do whose product with
  29296875 leaves 0, or at least 2^52, modulo 2^53 (`IdleOffIff`). The first
  number above the bound is one of them (`IdleWraps`).
- `keepiq ci run` names the variable after the name as written and fetches the
  secret by the trimmed name; they agree exactly for names without surrounding
  space (`SameVariableIff`), and in `a, b` they do not (`PaddedInstance`). Words
  between the first one and `--` are ignored (`RunsIff`).
- The agent's export line is not quoted. It reads as the two commands it is
  meant to be exactly for paths without an operator, an expansion, a quote, a
  backslash, a blank, a newline, a NUL, or a tilde at the beginning or after a
  colon (`ExportLineLexesIff`), and evaluating it sets SSH_AUTH_SOCK to the path
  for those only (`StartEvaluatesIff`). Characters of patterns are harmless,
  because the value of an assignment is not expanded to file names. A path with a
  blank becomes an assignment for another command, or two assignments
  (`BlankBreaks`, `BlankEvaluates`, `BlankInstance`).
- The socket is removed on every return, and SIGINT and SIGTERM leave it behind
  only before they are caught (`StopLeavesSocketIff`). The agent does not catch
  SIGHUP, so an agent in the foreground whose terminal closes leaves its socket
  in the file system (`HangupLeavesSocket`, `HangupRun`). On an orderly stop
  closing the listener already unlinks the path, and the deferred removal finds
  nothing.
- The starter's error message without a cause, `cli/sshagent_cmd.go:160`, is
  never reached: a copy that ended without its export line did not end in
  success (`StarterEnds`).
- An installation is safe wherever it is cut off unless the `.tmp` neighbour of
  the destination is another name of the source or of the destination; if
  neither file is empty, exactly then (`CrashSafeIffApart`; `CrashSafeIff` has
  the condition for all files). `copyExecutable` reports success and leaves an
  empty file where that neighbour is the source (`FullCopyIff`,
  `SharedSourceInstance`), while a run that fails leaves any other destination
  as it was (`FailureKeeps`); where it is the destination, the destination is
  emptied first (`SharedDestinationEmptied`, `SharedDestinationInstance`). These
  are properties of the function. Its one caller passes the running binary,
  which Linux normally refuses to open for writing (ETXTBSY), so that `keepiq
  install` fails at the open instead.
- Popping a flag takes whatever stands after it for its value, so on a list such
  as `--url --user x` the order of the pops matters (`OrderMatters`). It does not
  on lists where no value that one of the flags takes looks like another of them,
  which one reading of the list tells (`OrderIrrelevant`, `PopAllUntangled`).

## Model

| member | source | states |
|---|---|---|
| RoutePatterns.MatchSound | appinfo/routes.php:19-534 | a match captures legal values, and the template filled with them is the URL |
| RoutePatterns.MatchComplete | appinfo/routes.php:19-534 | every legal filling of a template is matched, with exactly those values |
| RoutePatterns.MatchIffDenotes | appinfo/routes.php:19-560 | the segment-wise matcher accepts exactly the URLs of the regular expression, and the capture is unique |
| RouteOverlap.OverlapsIff | appinfo/routes.php:125-137 | two templates pass the overlap test if and only if some URL matches both, and a built URL is one |
| RouteOverlap.MeetUrlMatches | appinfo/routes.php:125-137 | the URL built from two overlapping templates matches both |
| RouteOverlap.SharedUrlOverlaps | appinfo/routes.php:125-137 | templates that share a URL pass the test |
| RouteResolution.FirstMatchAt | appinfo/routes.php:126-137 | the entry a request resolves to matches, and nothing before it does |
| RouteResolution.Layers | appinfo/routes.php:536-560 | a merged list resolves as its layers in turn |
| RouteResolution.ReorderResolvesSame | appinfo/routes.php:126-137 | an order that keeps overlapping same-verb pairs in order resolves every request alike |
| RouteResolution.SwapChangesResult | appinfo/routes.php:126-137 | swapping two overlapping neighbours of a table changes what the URL built from them resolves to, if nothing before them matches it |
| RouteResolution.CollectIff | appinfo/routes.php:45-52 | a collection keyed by name and postfix keeps every route in place if and only if no two share a key |
| RouteNames.IdsApart | appinfo/routes.php:45-52 | entries with different name numbers are registered under different keys |
| RouteKeys.EntriesDistinct | appinfo/routes.php:19-560 | the keys of the table's entries are pairwise distinct |
| RouteRows.BeforeDisjoint | appinfo/routes.php:21-533 | entries in listing order share no URL under one verb |
| RouteRows.ChainBefore | appinfo/routes.php:21-533 | in a list whose neighbours are in order, all pairs are |
| RouteListing.ListingSorted | appinfo/routes.php:21-548 | both listings of the table are in order throughout |
| RouteFacts.ListingDisjoint | appinfo/routes.php:21-548 | no two entries of a listing overlap |
| RouteFacts.RowConflicts | appinfo/routes.php:304-309 | any two overlapping entries under api/ are a literal and its placeholder sibling |
| RouteFacts.SiblingsOverlap | appinfo/routes.php:351-368 | the four sibling pairs do overlap, with the literal on the earlier line |
| FileOrder.ByLineSorts | appinfo/routes.php:536-560 | ordering the entries by line gives a list in file order with the same members |
| FileOrder.FirstMatchIsLeast | appinfo/routes.php:126-137 | in file order a request resolves to an entry no later than any that matches |
| RouteTheorems.TableHasShape | appinfo/routes.php:536-560 | the table is the merge of its three layers, holds exactly the entries, and its domain layer is in file order |
| RouteTheorems.TableKeysDistinct | appinfo/routes.php:45-52 | so they are in the merged table, and collecting it keeps every route in its place |
| RouteTheorems.TableOverlaps | appinfo/routes.php:304-309 | under api/ only the four sibling pairs overlap |
| RouteTheorems.TableResolvesApi | appinfo/routes.php:126-137 | a URL an api/ entry matches resolves to that entry, or to its literal sibling |
| RouteTheorems.TableResolvesOutside | appinfo/routes.php:534-560 | outside api/ every GET reaches the page named for its path and every other verb nothing |
| RouteTheorems.TableResolvesUnder | appinfo/routes.php:552-558 | a URL under api/ resolves to an api/ entry of its verb that matches it, and to nothing exactly when none does; never to the fallback |
| RouteTheorems.TableOrderIff | appinfo/routes.php:126-137 | a list with the table's entries, in any order, resolves every request as the table does if and only if each literal precedes its placeholder sibling and each page the fallback |
| RouteTheorems.TablePublic | appinfo/routes.php:225-246 | every GET strictly below /public/ reaches the anonymous shell |
| RouteTheorems.PublicItselfFallsThrough | appinfo/routes.php:235-245 | GET /public/ resolves to the authenticated fallback |
| RouteTheorems.TableReachesApi | appinfo/routes.php:21-548 | every entry under api/ is the first match of some URL |
| RouteTheorems.TableReachesPage | appinfo/routes.php:223-245 | so is every page, and the fallback |
| RouteTheorems.PublicShadows | appinfo/routes.php:235-244 | in any table, a GET entry placed after the public catch-all is not reached below /public/ |
| AgentOptions.ParseAgentFlags | cli/sshagent_flags.go:24-63 | the loop, whose index an option's value advances too, computes the specified parse |
| AgentOptions.EachOption | cli/sshagent_flags.go:37-46 | what each option does to the flags read before it, by its name |
| AgentOptions.EachRefusal | cli/sshagent_flags.go:28-60 | an option without a value and a word that is no option stop the parser with that error, whatever follows |
| AgentOptions.IdleArgumentIff | cli/sshagent_flags.go:47-54 | `--idle` takes an optional sign and digits denoting a number from 0 to 2^63-1, as that number, and refuses everything else |
| AgentOptions.AcceptsIffSpelled | cli/sshagent_flags.go:24-63 | it accepts exactly the spellings of option lists, with the last value of each option |
| AgentOptions.FailsIffRefused | cli/sshagent_flags.go:28-60 | it fails exactly when, after proper options, the next argument is refused for that reason |
| AgentOptions.ParseAppend | cli/sshagent_flags.go:24-63 | parsing two lists is parsing the second from the first one's result |
| AgentOptions.ParseSpelled | cli/sshagent_flags.go:24-63 | every spelling of options parses to their meaning on top of the flags read before |
| AgentOptions.ParseRender | cli/sshagent_flags.go:24-63 | parsing undoes rendering for every flag record with minutes in range |
| AgentOptions.IdleExactIff | cli/sshagent_flags.go:47-54 | the duration of accepted minutes is exact if and only if they are at most 153722867 |
| AgentOptions.IdleOffIff | cli/sshagent/agent.go:96-99 | for which accepted minutes the idle lock is off: an if and only if over the remainder modulo 2^53 |
| AgentOptions.IdleOffWhenExact | cli/sshagent/agent.go:96-99 | up to the bound for exact durations only 0 turns it off |
| AgentOptions.IdleWraps | cli/sshagent_cmd.go:76 | `--idle 153722868` is accepted and turns the lock off |
| AgentOptions.IdleZeroIff | cli/sshagent_cmd.go:76 | the duration is zero if and only if the minutes are a multiple of 2^53 |
| Decimals.AtoiItoa | cli/sshagent_flags.go:50 | printed numbers read back as themselves exactly while they fit 64 bits |
| Decimals.AtoiIff | cli/sshagent_flags.go:50 | a text is read as a number if and only if it denotes it, digit by digit, and it fits 64 bits |
| Lines.HandoverIff | cli/sshagent_cmd.go:82-83 | a password survives a newline and one more reading if and only if a prompt can return it |
| Lines.AnswerIsAnswer | cli/main.go:138-141 | a prompt never returns a newline, nor a carriage return at the end |
| Lines.AnswerIff | cli/main.go:138-141 | a prompt returns the one text without newline and final carriage return that the input begins with, before carriage returns and then its end or a newline |
| Lines.FirstLineIff | cli/main.go:138 | a line is the text up to and including the first newline, or all of a text without one |
| Terminals.NextLineIsFirst | cli/term.go:30 | the line read is the first line of the text, however the text is cut into reads |
| Terminals.TypedIsText | cli/term.go:30 | what was typed is the text, in whatever pieces it is read |
| Terminals.Terminal.ReadLine | cli/term.go:30 | the reading loop returns that line, and shows what it read only with the echo on |
| Terminals.Terminal.ReadPasswordNoEcho | cli/term.go:15-35 | nothing typed is shown, and the echo ends on unless turning it on again fails |
| Terminals.Terminal.PromptSecret | cli/main.go:132-142 | the prompt returns the answer to what was typed, quietly where stty works; if the quiet read meets the end of file at once, the answer to what follows, read visibly |
| Environment.ChildReadsLast | cli/sshagent_cmd.go:144 | a child reads the last value its starter listed for a name |
| Environment.AppendSettles | cli/sshagent_cmd.go:144 | an appended entry settles its name for the child and no other name |
| Environment.EnvironReads | cli/sshagent_cmd.go:144 | in the list os.Environ gives, the last entry for a name is the one the process reads |
| Environment.ChildSees | cli/sshagent_cmd.go:144 | a child given that list and one entry more reads every other name as its starter does |
| DetachSafety.CopyCommand | cli/sshagent_cmd.go:143-144 | the copy is told not to detach, whatever the environment held, and dispatches the same arguments |
| DetachSafety.CopySees | cli/sshagent_cmd.go:144 | every variable but that flag has the value its starter reads |
| DetachSafety.SameFlags | cli/sshagent_cmd.go:56-62 | a copy past its own decision has its starter's flags |
| DetachSafety.LineIsPassword | cli/sshagent_cmd.go:80-83 | the line the copy reads is the starter's password, unless the starter was killed meanwhile |
| DetachSafety.MoveKeeps | cli/sshagent_cmd.go:55-165 | every move of every process keeps the invariant |
| DetachTheorems.RunKeeps | cli/sshagent_cmd.go:55-165 | so the invariant holds after every run |
| DetachTheorems.ExportsAreTrue | cli/sshagent_cmd.go:96-164 | what the starter prints is the export line of a copy that listens with the same flags, unlocked with the password asked for |
| DetachTheorems.OneCopy | cli/sshagent_cmd.go:134-173 | one copy at most, which does not detach and has its starter's flags; the starter has a password exactly when the start is not locked, every byte of it and its newline is still to write, in the pipe or read, and the copy reads a line exactly then |
| DetachTheorems.SocketLifetime | cli/sshagent_cmd.go:96-126 | the socket is there from binding until closing the listener or the deferred removal takes it away; it goes on every return and stays behind exactly after a kill in between; the deferred os.Remove runs once on every return after a successful Listen, and never otherwise |
| DetachTheorems.StopLeavesSocketIff | cli/sshagent_cmd.go:113-118 | without an uncaught signal a killed process leaves it behind if and only if the kill came between binding and catching SIGINT and SIGTERM |
| DetachTheorems.HangupLeavesSocket | cli/sshagent_cmd.go:100-114 | a signal that is not caught kills a serving agent, changes nothing else and leaves its socket behind |
| DetachTheorems.ServesPrepared | cli/sshagent_cmd.go:64-90 | whatever unlocks the vault or listens has core dumps off, and a confirmation program if asked for |
| DetachTheorems.StarterEnds | cli/sshagent_cmd.go:155-164 | success means both lines printed; a starter that printed nothing after starting a copy had one that failed |
| DetachHistory.RunRecorded | cli/sshagent_cmd.go:55-165 | each process has made a beginning of the listed calls in order, all of them if it succeeded; a failed call is its last; password, copy and what counts as confirmed, hardened, unlocked and listening are what the calls delivered |
| DetachHistory.PasswordTyped | cli/sshagent_cmd.go:80-86 | the password of a first process is the answer to what was typed at its prompt, the starter's or its own |
| DetachHistory.UnlockedWithTyped | cli/sshagent_cmd.go:139-145 | where a starter prints, its copy was unlocked, by a call that worked, with the answer to what was typed at the starter's prompt |
| DetachHistory.RoleIff | cli/sshagent_cmd.go:167-174 | a copy is started if and only if there is no --foreground, no terminal and no flag that says it is the copy |
| DetachHistory.SocketHonoured | cli/sshagent_cmd.go:92-101 | every printed line names the path of --socket, or the default one without it |
| DetachProgress.MoveLowers | cli/sshagent_cmd.go:55-173 | every move lowers the measure of stages, then bytes, left |
| DetachProgress.RunsEnd | cli/sshagent_cmd.go:55-173 | no run goes on for ever |
| DetachProgress.HelpfulPossible | cli/sshagent_cmd.go:148-164 | while the first process is not at rest, a move is possible that needs neither a signal nor a failure |
| DetachProgress.StuckOnlyAtRest | cli/sshagent_cmd.go:148-164 | a run that can go on by signals only has its first process returned, killed or serving |
| DetachProgress.RunComesToRest | cli/sshagent_cmd.go:148-164 | every run can be completed quietly until the first process is at rest |
| DetachProgress.HangupRun | cli/sshagent_cmd.go:100-114 | for every command line and environment that makes an agent in place there is a run that serves and is then killed so |
| DetachProgress.ForegroundServes | cli/sshagent_cmd.go:56-62 | `keepiq ssh-agent --foreground` is such a command line anywhere |
| DetachOutcome.WellRunPrints | cli/sshagent_cmd.go:155-164 | a starter that ends in a run without failures and signals has printed the export line and the copy's pid |
| ShellWords.ScanOrdinary | cli/sshagent_cmd.go:101 | ordinary text in a word is taken as it stands, unless a tilde-prefix begins in it |
| ShellWords.ScanPlain | cli/sshagent_cmd.go:101 | plain text in a word is taken as it stands |
| CiExport.BuildEnvName | cli/ci.go:106-117 | the builder loop yields KEEPIQ_ and for each character itself, its capital or a place, as Go maps it |
| CiExport.EnvNameIff | cli/ci.go:106-117 | and that name only |
| CiExport.EnvNameIsName | cli/ci.go:106-117 | the name is a shell name, with one character for each of the secret's name |
| CiExport.ExportLexes | cli/ci.go:70 | the line reads as the words `export` and `NAME=` with the value, also after its newline is taken off, whatever the value ends in |
| CiExport.ExportLexesIff | cli/ci.go:119-121 | it does so if and only if the value holds no NUL |
| CiExport.ExportEvaluates | cli/ci.go:67-71 | evaluating it sets and exports the variable to the value and changes nothing else |
| AgentExport.ExportLineLexesIff | cli/sshagent_cmd.go:101 | the agent's line reads as its assignment and its export if and only if the shell takes every character of the path as it stands |
| AgentExport.BlankBreaks | cli/sshagent_cmd.go:101 | a blank in the path turns the line into an assignment for a command named by what follows it |
| AgentExport.BlankEvaluates | cli/sshagent_cmd.go:101 | which the evaluator refuses, unless what follows is an assignment itself; then the variable gets only what stands before the blank |
| AgentExport.BlankInstance | cli/sshagent_cmd.go:101 | so it is for the socket path `/run/my keys/agent.sock` |
| AgentExport.StartLexes | cli/sshagent_cmd.go:162-163 | what the starter prints reads as four commands, for every path taken as it stands |
| AgentExport.StartEvaluates | cli/sshagent_cmd.go:162-163 | evaluating it sets and exports the socket path and the pid and changes nothing else, for every such path |
| AgentExport.StartEvaluatesIff | cli/sshagent_cmd.go:162-163 | evaluating it sets SSH_AUTH_SOCK to the socket path if and only if the shell takes the path as it stands |
| PopFlags.PopFlag | cli/main.go:107-123 | the loop, which skips a value with its flag, computes the specified pop |
| PopFlags.PopTwice | cli/main.go:107-123 | on every list a second pop of a flag finds nothing and changes nothing |
| PopFlags.PopSpelled | cli/main.go:107-123 | on a built list it returns the last value and the other items in order |
| PopFlags.PopsCommute | cli/config.go:61-63 | two flags of a built list may be popped in either order |
| PopFlags.PopAllSpelled | cli/config.go:61-63 | any flags of a built list, popped one after another in any order, give their last values and the items that carry none of them |
| PopFlags.PopAllUntangled | cli/config.go:61-63 | so it is for every list in which no value that one of the flags takes looks like another of them |
| PopFlags.OrderIrrelevant | cli/config.go:61-63 | on such lists all orders of the same flags give the same values and the same rest |
| PopFlags.OrderMatters | cli/config.go:61-63 | a list on which the order does matter |
| CiRun.FindSeparator | cli/ci.go:77-83 | the loop finds the first separator, or that there is none |
| CiRun.SplitsAtFirst | cli/ci.go:77-88 | the command is everything after the first separator, later ones included |
| CiRun.CmdCIRun | cli/ci.go:75-104 | the loop over the names, with its early returns, computes the specified plan |
| CiRun.RunsIff | cli/ci.go:75-104 | it runs a command exactly when there is a name, a separator and a command, and every name can be fetched |
| CiRun.ErrorsIff | cli/ci.go:84-100 | each error comes out exactly when its cause is the first: the arguments, the set-up, or the first name whose secret is not to be had |
| CiRun.BuildChildEnviron | cli/main.go:332-341 | the loop keeps exactly the entries that do not set the application key, in order |
| CiRun.ChildEnvironKeeps | cli/main.go:329-341 | what the parent passes on lacks its application key and nothing else |
| CiRun.ChildReads | cli/main.go:343-351 | the command reads for each variable the last secret requested for it, else the parent's value, but never the parent's application key |
| CiRun.CommandReads | cli/main.go:343-351 | which is the value the parent reads itself, for the environment that Go hands out |
| CiRun.LastRequestIff | cli/ci.go:94-101 | the last request for a variable is the last name that maps to it |
| CiRun.TrimSpaceIff | cli/ci.go:96 | the fetched name is the name without the space at both ends, all of it and nothing else |
| CiRun.SpacesAre | cli/ci.go:96 | space is what Unicode calls white space |
| CiRun.SameVariableIff | cli/ci.go:96-100 | the variable is that of the fetched name if and only if the name has no surrounding space |
| CiRun.PaddedInstance | cli/ci.go:96-100 | in `a, b` the second secret is fetched as `b` for a variable that is not its own |
| Installs.Disk.CopyExecutable | cli/install.go:24-48 | the outcome by which calls work: installed if and only if all do, else the first that does not; after a failed copy or close the temporary file is gone if it can be removed; and every state of the disk on the way |
| Installs.Disk.CopyAll | cli/install.go:38-42 | the copy loop adds parts of the source in order, all of it if nothing breaks off, else all up to there |
| Installs.AlwaysOldOrComplete | cli/install.go:24-48 | after every step the destination holds its old content or the complete source, when the temporary name is no other name of either |
| Installs.CrashSafeIff | cli/install.go:24-48 | it does so in every run if and only if there is nothing to copy, the temporary name is apart, or the destination is empty and, if it is the temporary file, gets one character at most |
| Installs.CrashSafeIffApart | cli/install.go:24-48 | where neither file is empty, if and only if the temporary name is apart |
| Installs.DestinationEnds | cli/install.go:24-48 | the destination ends with the source if and only if the installation succeeded |
| Installs.FullCopyIff | cli/install.go:33-47 | success is a full copy if and only if the temporary file is not the source, or the source is empty |
| Installs.FailureKeeps | cli/install.go:33-47 | a run that fails keeps the destination in every state, unless that is the temporary file |
| Installs.SharedSourceInstance | cli/install.go:33-47 | a store where success leaves an empty file |
| Installs.SharedDestinationEmptied | cli/install.go:33-34 | a temporary file that is the destination empties it first |
| Installs.SharedDestinationInstance | cli/install.go:33-42 | a store where a failed copy has emptied the destination |
| Installs.TemporaryGone | cli/install.go:38-47 | no temporary file is left, unless its removal fails or the rename does |
| Installs.ExecutableIff | cli/install.go:34 | the result is executable unless an old temporary file that was not is reused |
| Installs.OthersUntouched | cli/install.go:24-48 | every other name keeps its content in every state |

## Left out

- HEAD requests, methods beyond the five verbs, and redirects for a trailing slash.
- Key handling, decryption and serving of the agent: unlocking, listening and serving are calls that succeed or fail.
- The directory check and the removal of a stale socket inside `Listen`: part of binding, which may fail.
- The default socket path: a value both processes compute from an environment that agrees on it.
- A crash of the machine while the agent serves. SIGKILL of the agent is a signal that is not caught; SIGSTOP is a pause.
- A write to standard output that fails without a signal, such as on a full disk.
- The terminal when a signal arrives between the two `stty` runs: the echo stays off, and no state after the kill is modelled.
- Double quotes, expansions, operators, comments and line continuations of the shell: the lexer refuses them. So it does with a tilde-prefix, and with a pattern outside an assignment, since pathname expansion is not modelled.
- HTTP, JSON, configuration files and PEM handling; `get`, `show`, `list`, `copy`, completion and usage text.
- Data that the disk has not written yet when the machine fails: the states of `Installs` are those other processes see.
- Directories, symbolic links and permissions in `Installs`: creating the directory is a call that succeeds or fails.
