/**
 Process environments as lists of `NAME=value` entries.

 `Getenv` reads the first entry for a name, as Go's process environment does;
 `Dedup` is what os/exec makes of an entry list before it starts a child.
 */
module Environment {
  import opened Results
  import opened Text

  predicate Sets(entry: string, name: string) {
    HasPrefix(entry, name + "=")
  }

  /** The text before the first `=`, if there is one. */
  function KeyOf(entry: string): (key: Option<string>)
    ensures key.Some? <==> '=' in entry
    ensures key.Some? ==> '=' !in key.value && Sets(entry, key.value)
  {
    if entry == "" then None
    else if entry[0] == '=' then Some("")
    else
      match KeyOf(entry[1..])
      case None => None
      case Some(key) =>
        assert entry == [entry[0]] + entry[1..];
        Some([entry[0]] + key)
  }

  lemma {:induction false} KeyOfSets(entry: string, name: string)
    requires '=' !in name
    ensures Sets(entry, name) <==> KeyOf(entry) == Some(name)
  {
    if Sets(entry, name) {
      assert entry[|name|] == '=';
      var key := KeyOf(entry).value;
      assert entry[|key|] == '=';
      assert forall k | 0 <= k < |name| :: entry[k] == name[k] != '=';
      assert forall k | 0 <= k < |key| :: entry[k] == key[k] != '=';
      assert key == entry[..|key|] == entry[..|name|] == name;
    }
  }

  /** What a process sees: the value of the first entry for the name. */
  function Getenv(env: seq<string>, name: string): Option<string> {
    if env == [] then None
    else if Sets(env[0], name) then Some(env[0][|name| + 1..])
    else Getenv(env[1..], name)
  }

  /** The value of the last entry for the name. */
  function LastValue(env: seq<string>, name: string): Option<string> {
    if env == [] then None
    else
      var last := env[|env| - 1];
      if Sets(last, name) then Some(last[|name| + 1..]) else LastValue(env[..|env| - 1], name)
  }

  predicate Repeated(entry: string, others: seq<string>) {
    KeyOf(entry).Some? && exists k | 0 <= k < |others| :: KeyOf(others[k]) == KeyOf(entry)
  }

  /** The entry list of a child: of the entries for one name, only the last stays. */
  function Dedup(env: seq<string>): seq<string> {
    if env == [] then []
    else if Repeated(env[0], env[1..]) then Dedup(env[1..])
    else [env[0]] + Dedup(env[1..])
  }

  /** The entry list a process gets of itself: of the entries for one name, only the first stays. */
  function Environ(env: seq<string>): seq<string> {
    if env == [] then []
    else
      var last := env[|env| - 1];
      if Repeated(last, env[..|env| - 1]) then Environ(env[..|env| - 1]) else Environ(env[..|env| - 1]) + [last]
  }

  lemma {:induction false} LastOfCons(entry: string, env: seq<string>, name: string)
    ensures LastValue([entry] + env, name)
         == if LastValue(env, name).Some? then LastValue(env, name)
            else if Sets(entry, name) then Some(entry[|name| + 1..])
            else None
  {
    var all := [entry] + env;
    if env == [] {
      assert all[..|all| - 1] == [];
    } else {
      assert all[..|all| - 1] == [entry] + env[..|env| - 1];
      LastOfCons(entry, env[..|env| - 1], name);
    }
  }

  lemma {:induction false} LastValueNone(env: seq<string>, name: string)
    ensures LastValue(env, name) == None <==> forall k | 0 <= k < |env| :: !Sets(env[k], name)
  {
    if env != [] {
      LastValueNone(env[..|env| - 1], name);
      assert forall k | 0 <= k < |env| :: k < |env| - 1 ==> env[..|env| - 1][k] == env[k];
    }
  }

  lemma {:induction false} LastValueOfAppend(env: seq<string>, more: seq<string>, name: string)
    ensures LastValue(env + more, name)
         == if LastValue(more, name).Some? then LastValue(more, name) else LastValue(env, name)
  {
    if more == [] {
      assert env + more == env;
    } else {
      var n := |more| - 1;
      assert (env + more)[..|env + more| - 1] == env + more[..n];
      LastValueOfAppend(env, more[..n], name);
    }
  }

  /** A child reads the last value its starter listed, whatever came before it. */
  lemma {:induction false} ChildReadsLast(env: seq<string>, name: string)
    requires '=' !in name
    ensures Getenv(Dedup(env), name) == LastValue(env, name)
  {
    if env != [] {
      var entry, later := env[0], env[1..];
      assert env == [entry] + later;
      ChildReadsLast(later, name);
      LastOfCons(entry, later, name);
      LastValueNone(later, name);
      KeyOfSets(entry, name);
      forall k | 0 <= k < |later|
        ensures Sets(later[k], name) <==> KeyOf(later[k]) == Some(name)
      {
        KeyOfSets(later[k], name);
      }
      if !Repeated(entry, later) {
        assert Dedup(env) == [entry] + Dedup(later);
        assert ([entry] + Dedup(later))[1..] == Dedup(later);
      }
    }
  }

  /** Appending an entry settles its name for the child and no other name. */
  lemma {:induction false} AppendSettles(env: seq<string>, name: string, value: string, other: string)
    requires '=' !in name && '=' !in other
    ensures Getenv(Dedup(env + [name + "=" + value]), other)
         == if other == name then Some(value) else LastValue(env, other)
  {
    var entry := name + "=" + value;
    ChildReadsLast(env + [entry], other);
    assert (env + [entry])[..|env|] == env;
    assert Sets(entry, name);
    KeyOfSets(entry, name);
    KeyOfSets(entry, other);
    assert entry[|name| + 1..] == value;
  }

  lemma {:induction false} GetenvOfAppend(env: seq<string>, entry: string, name: string)
    ensures Getenv(env + [entry], name)
         == if Getenv(env, name).Some? then Getenv(env, name)
            else if Sets(entry, name) then Some(entry[|name| + 1..])
            else None
  {
    if env == [] {
      assert [] + [entry] == [entry];
    } else {
      assert (env + [entry])[1..] == env[1..] + [entry];
      GetenvOfAppend(env[1..], entry, name);
    }
  }

  lemma {:induction false} GetenvNone(env: seq<string>, name: string)
    requires '=' !in name
    ensures Getenv(env, name).Some? <==> exists k | 0 <= k < |env| :: KeyOf(env[k]) == Some(name)
  {
    if env != [] {
      KeyOfSets(env[0], name);
      GetenvNone(env[1..], name);
      assert forall k | 0 < k < |env| :: env[k] == env[1..][k - 1];
      if exists k | 0 <= k < |env[1..]| :: KeyOf(env[1..][k]) == Some(name) {
        var k :| 0 <= k < |env[1..]| && KeyOf(env[1..][k]) == Some(name);
        assert KeyOf(env[k + 1]) == Some(name);
      }
    }
  }

  /** In that list the last entry for a name is the one the process reads. */
  lemma {:induction false} EnvironReads(env: seq<string>, name: string)
    requires '=' !in name
    ensures LastValue(Environ(env), name) == Getenv(env, name)
  {
    if env != [] {
      var init, last := env[..|env| - 1], env[|env| - 1];
      assert env == init + [last];
      EnvironReads(init, name);
      GetenvOfAppend(init, last, name);
      GetenvNone(init, name);
      KeyOfSets(last, name);
      var kept := Environ(init);
      assert (kept + [last])[..|kept|] == kept;
    }
  }

  /** A child started with its starter's environment and one entry more reads all else as its starter does. */
  lemma {:induction false} ChildSees(env: seq<string>, name: string, value: string, other: string)
    requires '=' !in name && '=' !in other
    ensures Getenv(Dedup(Environ(env) + [name + "=" + value]), other)
         == if other == name then Some(value) else Getenv(env, other)
  {
    AppendSettles(Environ(env), name, value, other);
    EnvironReads(env, other);
  }
}
