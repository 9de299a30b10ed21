/** `popFlag`: taking one flag and its values out of an argument list. */
module PopFlags {
  import opened Text
  import opened Results
  import opened Environment

  datatype Popped = Popped(value: string, rest: seq<string>)

  /** Popping with a value found already. */
  function PopFrom(val: string, args: seq<string>, name: string): Popped
    decreases |args|
  {
    if args == [] then Popped(val, [])
    else if args[0] == name && |args| >= 2 then PopFrom(args[1], args[2..], name)
    else if HasPrefix(args[0], name + "=") then PopFrom(args[0][|name| + 1..], args[1..], name)
    else
      var r := PopFrom(val, args[1..], name);
      Popped(r.value, [args[0]] + r.rest)
  }

  function Pop(args: seq<string>, name: string): Popped {
    PopFrom("", args, name)
  }

  method PopFlag(args: seq<string>, name: string) returns (val: string, out: seq<string>)
    ensures Popped(val, out) == Pop(args, name)
  {
    val, out := "", [];
    var i := 0;
    while i < |args|
      invariant 0 <= i <= |args|
      invariant var r := PopFrom(val, args[i..], name); Pop(args, name) == Popped(r.value, out + r.rest)
    {
      ghost var rest := args[i..];
      assert rest[0] == args[i] && rest[1..] == args[i + 1..];
      if args[i] == name && i + 1 < |args| {
        assert rest[1] == args[i + 1] && rest[2..] == args[i + 2..];
        val := args[i + 1];
        i := i + 2;
      } else if HasPrefix(args[i], name + "=") {
        val := args[i][|name| + 1..];
        i := i + 1;
      } else {
        ghost var more := PopFrom(val, args[i + 1..], name);
        assert out + ([args[i]] + more.rest) == out + [args[i]] + more.rest;
        out := out + [args[i]];
        i := i + 1;
      }
    }
    assert args[i..] == [] && out + [] == out;
  }

  // ---- On every list ----

  /** No argument is the flag with a value: it may stand, without `=`, at the end only. */
  predicate Without(args: seq<string>, name: string) {
    forall k | 0 <= k < |args| :: (args[k] == name ==> k == |args| - 1) && !HasPrefix(args[k], name + "=")
  }

  lemma {:induction false} PopLeavesNone(val: string, args: seq<string>, name: string)
    ensures Without(PopFrom(val, args, name).rest, name)
    decreases |args|
  {
    if args == [] {
    } else if args[0] == name && |args| >= 2 {
      PopLeavesNone(args[1], args[2..], name);
    } else if HasPrefix(args[0], name + "=") {
      PopLeavesNone(args[0][|name| + 1..], args[1..], name);
    } else {
      PopLeavesNone(val, args[1..], name);
      var rest := PopFrom(val, args[1..], name).rest;
      var all := [args[0]] + rest;
      assert forall k | 0 < k < |all| :: all[k] == rest[k - 1];
    }
  }

  lemma {:induction false} PopOfNone(val: string, args: seq<string>, name: string)
    requires Without(args, name)
    ensures PopFrom(val, args, name) == Popped(val, args)
    decreases |args|
  {
    if args != [] {
      assert args[0] == name ==> |args| == 1;
      PopOfNone(val, args[1..], name);
      assert [args[0]] + args[1..] == args;
    }
  }

  /** A second pop of the same flag finds nothing and changes nothing. */
  lemma PopTwice(args: seq<string>, name: string)
    ensures Pop(Pop(args, name).rest, name) == Popped("", Pop(args, name).rest)
  {
    PopLeavesNone("", args, name);
    PopOfNone("", Pop(args, name).rest, name);
  }

  // ---- On lists that were built from items ----

  /** A positional argument, or a flag with its value in the next argument or after `=`. */
  datatype Item = Positional(text: string) | Separate(flag: string, value: string) | Joined(flag: string, value: string)

  function Spell(item: Item): seq<string> {
    match item
    case Positional(text) => [text]
    case Separate(flag, value) => [flag, value]
    case Joined(flag, value) => [flag + "=" + value]
  }

  function Spelled(items: seq<Item>): seq<string> {
    if items == [] then [] else Spell(items[0]) + Spelled(items[1..])
  }

  predicate LooksLike(arg: string, name: string) {
    arg == name || HasPrefix(arg, name + "=")
  }

  /** Nothing of another item could be taken for the flag. */
  predicate Clear(item: Item, name: string) {
    match item
    case Positional(text) => !LooksLike(text, name)
    case Separate(flag, value) => '=' !in flag && (flag != name ==> !LooksLike(value, name))
    case Joined(flag, _) => '=' !in flag
  }

  predicate AllClear(items: seq<Item>, name: string) {
    forall k | 0 <= k < |items| :: Clear(items[k], name)
  }

  predicate Carries(item: Item, name: string) {
    !item.Positional? && item.flag == name
  }

  /** The value of the last item that carries the flag. */
  function LastOf(items: seq<Item>, name: string, otherwise: string): string {
    if items == [] then otherwise
    else LastOf(items[1..], name, if Carries(items[0], name) then items[0].value else otherwise)
  }

  /** The other items, in order. */
  function Others(items: seq<Item>, name: string): seq<Item> {
    if items == [] then []
    else (if Carries(items[0], name) then [] else [items[0]]) + Others(items[1..], name)
  }

  lemma OtherFlag(flag: string, value: string, name: string)
    requires '=' !in flag && '=' !in name && flag != name
    ensures !LooksLike(flag + "=" + value, name) && !HasPrefix(flag, name + "=")
  {
    var arg := flag + "=" + value;
    assert arg[|flag|] == '=';
    if |name| < |flag| {
      assert arg[|name|] == flag[|name|] != '=';
    } else if |name| == |flag| {
      assert arg[..|flag|] == flag;
    } else {
      assert name[|flag|] != '=';
    }
  }

  lemma {:induction false} SpelledCons(item: Item, items: seq<Item>)
    ensures Spelled([item] + items) == Spell(item) + Spelled(items)
  {
    assert ([item] + items)[1..] == items;
  }

  /** One item in front: its value is taken if it carries the flag, and it stays if not. */
  lemma {:induction false} PopItem(val: string, item: Item, tail: seq<string>, name: string)
    requires '=' !in name && Clear(item, name)
    ensures PopFrom(val, Spell(item) + tail, name)
         == if Carries(item, name) then PopFrom(item.value, tail, name)
            else Popped(PopFrom(val, tail, name).value, Spell(item) + PopFrom(val, tail, name).rest)
  {
    var args := Spell(item) + tail;
    match item
    case Positional(text) =>
      assert args[1..] == tail;
    case Separate(flag, value) =>
      assert args[1..] == [value] + tail && args[2..] == tail && args[1..][1..] == tail;
      if flag != name {
        OtherFlag(flag, value, name);
        var rest := PopFrom(val, tail, name).rest;
        assert PopFrom(val, args[1..], name).rest == [value] + rest;
        assert [flag] + ([value] + rest) == [flag, value] + rest;
      }
    case Joined(flag, value) =>
      assert args[1..] == tail;
      JoinedFlag(flag, value);
      if flag != name {
        OtherFlag(flag, value, name);
      }
  }

  /** What may stand at the end: nothing, or one argument that gives the flag no value. */
  predicate Ends(end: seq<string>, name: string) {
    |end| <= 1 && (end != [] ==> !HasPrefix(end[0], name + "="))
  }

  lemma {:induction false} PopEnd(val: string, end: seq<string>, name: string)
    requires Ends(end, name)
    ensures PopFrom(val, end, name) == Popped(val, end)
  {
    if end != [] {
      assert end[1..] == [] && [end[0]] + [] == end;
    }
  }

  lemma {:induction false} PopThenEnd(val: string, items: seq<Item>, end: seq<string>, name: string)
    requires '=' !in name && AllClear(items, name) && Ends(end, name)
    ensures PopFrom(val, Spelled(items) + end, name)
         == Popped(LastOf(items, name, val), Spelled(Others(items, name)) + end)
    decreases |items|
  {
    hide PopFrom, Clear, Ends, Spell;
    if items == [] {
      PopEnd(val, end, name);
      assert [] + end == end;
    } else {
      var item, more := items[0], items[1..];
      assert items == [item] + more;
      assert AllClear(more, name);
      SpelledCons(item, more);
      hide Spelled;
      assert Spelled(items) + end == Spell(item) + (Spelled(more) + end);
      PopItem(val, item, Spelled(more) + end, name);
      PopThenEnd(if Carries(item, name) then item.value else val, more, end, name);
      OthersCons(item, more, name);
      SpelledCons(item, Others(more, name));
      assert Spell(item) + Spelled(Others(more, name)) + end == Spell(item) + (Spelled(Others(more, name)) + end);
    }
  }

  /** Popping a flag of a built list gives its last value and the other items, in order. */
  lemma {:induction false} PopSpelled(val: string, items: seq<Item>, name: string)
    requires '=' !in name && AllClear(items, name)
    ensures PopFrom(val, Spelled(items), name)
         == Popped(LastOf(items, name, val), Spelled(Others(items, name)))
  {
    PopThenEnd(val, items, [], name);
    assert Spelled(items) + [] == Spelled(items);
    assert Spelled(Others(items, name)) + [] == Spelled(Others(items, name));
  }

  lemma JoinedFlag(flag: string, value: string)
    ensures var arg := flag + "=" + value;
      arg != flag && HasPrefix(arg, flag + "=") && arg[|flag| + 1..] == value
  {
    assert |flag + "=" + value| > |flag|;
  }

  lemma {:induction false} OthersCons(item: Item, items: seq<Item>, name: string)
    ensures Others([item] + items, name)
         == if Carries(item, name) then Others(items, name) else [item] + Others(items, name)
  {
    assert ([item] + items)[1..] == items;
    assert [] + Others(items, name) == Others(items, name);
  }

  lemma {:induction false} OthersCommute(items: seq<Item>, a: string, b: string, otherwise: string)
    requires a != b
    ensures Others(Others(items, a), b) == Others(Others(items, b), a)
    ensures LastOf(Others(items, a), b, otherwise) == LastOf(items, b, otherwise)
    decreases |items|
  {
    if items != [] {
      var item, more := items[0], items[1..];
      assert items == [item] + more;
      OthersCommute(more, a, b, if Carries(item, b) then item.value else otherwise);
      OthersCons(item, more, a);
      OthersCons(item, more, b);
      OthersCons(item, Others(more, a), b);
      OthersCons(item, Others(more, b), a);
    }
  }

  lemma {:induction false} OthersClear(items: seq<Item>, a: string, b: string)
    requires AllClear(items, b)
    ensures AllClear(Others(items, a), b)
  {
    if items != [] {
      OthersClear(items[1..], a, b);
      var rest := Others(items[1..], a);
      assert Clear(items[0], b);
      assert forall k | 0 < k < |[items[0]] + rest| :: ([items[0]] + rest)[k] == rest[k - 1];
    }
  }

  /** Two flags of a built list may be popped in either order, with the same values and the same rest. */
  lemma {:induction false} PopsCommute(items: seq<Item>, a: string, b: string)
    requires a != b && '=' !in a && '=' !in b && AllClear(items, a) && AllClear(items, b)
    ensures var ab, ba := Pop(Pop(Spelled(items), a).rest, b), Pop(Pop(Spelled(items), b).rest, a);
      && ab.rest == ba.rest == Spelled(Others(Others(items, a), b))
      && ab.value == Pop(Spelled(items), b).value == LastOf(items, b, "")
      && ba.value == Pop(Spelled(items), a).value == LastOf(items, a, "")
  {
    PopSpelled("", items, a);
    PopSpelled("", items, b);
    OthersClear(items, a, b);
    OthersClear(items, b, a);
    PopSpelled("", Others(items, a), b);
    PopSpelled("", Others(items, b), a);
    OthersCommute(items, a, b, "");
    OthersCommute(items, b, a, "");
  }

  // ---- Any number of flags ----

  datatype AllPopped = AllPopped(values: map<string, string>, rest: seq<string>)

  /** Popping one flag after another, as the commands do. */
  function PopAll(args: seq<string>, names: seq<string>): AllPopped
    decreases |names|
  {
    if names == [] then AllPopped(map[], args)
    else
      var first := Pop(args, names[0]);
      var more := PopAll(first.rest, names[1..]);
      AllPopped(more.values[names[0] := first.value], more.rest)
  }

  /** The items that carry none of the flags. */
  function Keeping(items: seq<Item>, names: set<string>): seq<Item> {
    if items == [] then []
    else (if !items[0].Positional? && items[0].flag in names then [] else [items[0]]) + Keeping(items[1..], names)
  }

  lemma {:induction false} KeepingCons(item: Item, items: seq<Item>, names: set<string>)
    ensures Keeping([item] + items, names)
         == if !item.Positional? && item.flag in names then Keeping(items, names) else [item] + Keeping(items, names)
  {
    assert ([item] + items)[1..] == items;
    assert [] + Keeping(items, names) == Keeping(items, names);
  }

  lemma {:induction false} KeepingOthers(items: seq<Item>, names: set<string>, name: string, otherwise: string)
    requires name !in names
    ensures Others(Keeping(items, names), name) == Keeping(items, names + {name})
    ensures LastOf(Keeping(items, names), name, otherwise) == LastOf(items, name, otherwise)
    decreases |items|
  {
    if items != [] {
      var item, more := items[0], items[1..];
      assert items == [item] + more;
      KeepingOthers(more, names, name, if Carries(item, name) then item.value else otherwise);
      KeepingCons(item, more, names);
      KeepingCons(item, more, names + {name});
      OthersCons(item, Keeping(more, names), name);
      assert ([item] + Keeping(more, names))[1..] == Keeping(more, names);
    }
  }

  lemma {:induction false} KeepingAll(items: seq<Item>)
    ensures Keeping(items, {}) == items
  {
    if items != [] {
      KeepingAll(items[1..]);
      assert items == [items[0]] + items[1..];
    }
  }

  lemma {:induction false} KeepingClear(items: seq<Item>, names: set<string>, name: string)
    requires AllClear(items, name)
    ensures AllClear(Keeping(items, names), name)
  {
    hide Clear;
    if items != [] {
      assert items == [items[0]] + items[1..];
      KeepingClear(items[1..], names, name);
      KeepingCons(items[0], items[1..], names);
      var rest := Keeping(items[1..], names);
      assert forall k | 0 < k < |[items[0]] + rest| :: ([items[0]] + rest)[k] == rest[k - 1];
    }
  }

  predicate IsFlags(names: seq<string>) {
    && (forall k | 0 <= k < |names| :: '=' !in names[k])
    && (forall i, j | 0 <= i < j < |names| :: names[i] != names[j])
  }

  function LastValues(items: seq<Item>, names: seq<string>): map<string, string> {
    map name | name in names :: LastOf(items, name, "")
  }

  function SetOf(names: seq<string>): set<string> {
    set name | name in names
  }

  lemma {:induction false} SetCons(items: seq<Item>, first: string, more: seq<string>, done: set<string>)
    ensures SetOf([first] + more) == {first} + SetOf(more)
    ensures done + {first} + SetOf(more) == done + SetOf([first] + more)
    ensures LastValues(items, [first] + more) == LastValues(items, more)[first := LastOf(items, first, "")]
  {
    hide LastOf;
    assert forall name :: name in [first] + more <==> name == first || name in more;
  }

  /**
   Popping any flags of a built list one after another, in any order, gives the
   last value of each and the items that carry none of them.
   */
  lemma {:induction false} PopAllSpelled(items: seq<Item>, names: seq<string>)
    requires IsFlags(names) && forall k | 0 <= k < |names| :: AllClear(items, names[k])
    ensures PopAll(Spelled(items), names)
         == AllPopped(LastValues(items, names), Spelled(Keeping(items, SetOf(names))))
  {
    PopAllThenEnd(items, [], names);
    assert Spelled(items) + [] == Spelled(items);
    assert Spelled(Keeping(items, SetOf(names))) + [] == Spelled(Keeping(items, SetOf(names)));
  }

  lemma {:induction false} PopAllThenEnd(items: seq<Item>, end: seq<string>, names: seq<string>)
    requires IsFlags(names) && forall k | 0 <= k < |names| :: AllClear(items, names[k]) && Ends(end, names[k])
    ensures PopAll(Spelled(items) + end, names)
         == AllPopped(LastValues(items, names), Spelled(Keeping(items, SetOf(names))) + end)
  {
    KeepingAll(items);
    PopAllFrom(items, end, {}, names);
    assert {} + SetOf(names) == SetOf(names);
  }

  lemma {:induction false} PopAllFrom(items: seq<Item>, end: seq<string>, done: set<string>, names: seq<string>)
    requires IsFlags(names)
    requires forall k | 0 <= k < |names| :: names[k] !in done && AllClear(items, names[k]) && Ends(end, names[k])
    ensures PopAll(Spelled(Keeping(items, done)) + end, names)
         == AllPopped(LastValues(items, names), Spelled(Keeping(items, done + SetOf(names))) + end)
    decreases |names|
  {
    hide Pop, AllClear, Keeping, Spelled, LastOf, Others, Ends;
    if names == [] {
      NoNames(items);
      assert done + SetOf(names) == done;
    } else {
      var first, more := names[0], names[1..];
      assert names == [first] + more;
      assert forall k | 0 <= k < |more| :: more[k] == names[k + 1];
      hide LastValues, SetOf;
      KeepingClear(items, done, first);
      KeepingOthers(items, done, first, "");
      PopBuilt(Keeping(items, done), end, first);
      PopAllFrom(items, end, done + {first}, more);
      SetCons(items, first, more, done);
    }
  }

  lemma NoNames(items: seq<Item>)
    ensures LastValues(items, []) == map[] && SetOf([]) == {}
  {
  }

  lemma {:induction false} PopBuilt(items: seq<Item>, end: seq<string>, name: string)
    requires '=' !in name && AllClear(items, name) && Ends(end, name)
    ensures Pop(Spelled(items) + end, name) == Popped(LastOf(items, name, ""), Spelled(Others(items, name)) + end)
  {
    PopThenEnd("", items, end, name);
  }

  // ---- Which lists are built so ----

  /** Reading a list once for all the flags: no value that one of them takes looks like another. */
  predicate Untangled(args: seq<string>, names: set<string>)
    decreases |args|
  {
    if args == [] then true
    else if args[0] in names && |args| >= 2 then
      (forall name | name in names && name != args[0] :: !LooksLike(args[1], name)) && Untangled(args[2..], names)
    else Untangled(args[1..], names)
  }

  predicate IsJoined(arg: string, names: set<string>) {
    KeyOf(arg).Some? && KeyOf(arg).value in names
  }

  /** The items that reading finds. */
  function ItemsOf(args: seq<string>, names: set<string>): seq<Item>
    decreases |args|
  {
    if args == [] then []
    else if args[0] in names then
      if |args| >= 2 then [Separate(args[0], args[1])] + ItemsOf(args[2..], names) else []
    else if IsJoined(args[0], names) then
      [Joined(KeyOf(args[0]).value, args[0][|KeyOf(args[0]).value| + 1..])] + ItemsOf(args[1..], names)
    else [Positional(args[0])] + ItemsOf(args[1..], names)
  }

  /** A flag at the end, with nothing to take for its value. */
  function EndOf(args: seq<string>, names: set<string>): (end: seq<string>)
    ensures |end| <= 1 && (end != [] ==> end[0] in names)
    decreases |args|
  {
    if args == [] then []
    else if args[0] in names then if |args| >= 2 then EndOf(args[2..], names) else args
    else EndOf(args[1..], names)
  }

  lemma {:induction false} SpelledFront(item: Item, more: seq<Item>, end: seq<string>, rest: seq<string>)
    requires Spelled(more) + end == rest
    ensures Spelled([item] + more) + end == Spell(item) + rest
  {
    hide Spell, Spelled;
    SpelledCons(item, more);
    assert Spell(item) + Spelled(more) + end == Spell(item) + (Spelled(more) + end);
  }

  lemma {:induction false} ItemsSpelled(args: seq<string>, names: set<string>)
    ensures Spelled(ItemsOf(args, names)) + EndOf(args, names) == args
    decreases |args|
  {
    if args == [] || (args[0] in names && |args| == 1) {
      assert [] + args == args;
    } else if args[0] in names {
      hide Spelled;
      ItemsSpelled(args[2..], names);
      SpelledFront(Separate(args[0], args[1]), ItemsOf(args[2..], names), EndOf(args[2..], names), args[2..]);
      assert Spell(Separate(args[0], args[1])) + args[2..] == args;
    } else {
      FirstItem(args, names);
      hide Spelled, Spell, ItemsOf, EndOf, IsJoined;
      ItemsSpelled(args[1..], names);
      SpelledFront(ItemsOf(args, names)[0], ItemsOf(args[1..], names), EndOf(args[1..], names), args[1..]);
      assert [args[0]] + args[1..] == args;
    }
  }

  lemma {:induction false} FirstItem(args: seq<string>, names: set<string>)
    requires args != [] && args[0] !in names
    ensures ItemsOf(args, names) != [] && Spell(ItemsOf(args, names)[0]) == [args[0]]
    ensures ItemsOf(args, names) == [ItemsOf(args, names)[0]] + ItemsOf(args[1..], names)
    ensures EndOf(args, names) == EndOf(args[1..], names)
  {
    if IsJoined(args[0], names) {
      var key := KeyOf(args[0]).value;
      assert Sets(args[0], key);
      assert key + "=" + args[0][|key| + 1..] == args[0];
    }
  }

  lemma {:induction false} ItemsClear(args: seq<string>, names: set<string>, name: string)
    requires name in names && (forall n | n in names :: '=' !in n) && Untangled(args, names)
    ensures AllClear(ItemsOf(args, names), name)
    decreases |args|
  {
    if args != [] {
      if args[0] in names {
        if |args| >= 2 {
          ItemsClear(args[2..], names, name);
          ClearCons(Separate(args[0], args[1]), ItemsOf(args[2..], names), name);
        }
      } else {
        ItemsClear(args[1..], names, name);
        KeyOfSets(args[0], name);
        var item := ItemsOf(args, names)[0];
        ClearCons(item, ItemsOf(args[1..], names), name);
        assert ItemsOf(args, names) == [item] + ItemsOf(args[1..], names);
      }
    }
  }

  lemma ClearCons(item: Item, items: seq<Item>, name: string)
    requires Clear(item, name) && AllClear(items, name)
    ensures AllClear([item] + items, name)
  {
    hide Clear;
  }

  /**
   Popping any flags of an untangled list, in any order, gives the last value of
   each and the arguments that are neither one of the flags nor a value of one.
   */
  lemma {:induction false} PopAllUntangled(args: seq<string>, names: seq<string>)
    requires IsFlags(names) && Untangled(args, SetOf(names))
    ensures var items := ItemsOf(args, SetOf(names));
      PopAll(args, names)
      == AllPopped(LastValues(items, names), Spelled(Keeping(items, SetOf(names))) + EndOf(args, SetOf(names)))
  {
    var items, end := ItemsOf(args, SetOf(names)), EndOf(args, SetOf(names));
    ItemsSpelled(args, SetOf(names));
    forall k | 0 <= k < |names| ensures AllClear(items, names[k]) && Ends(end, names[k]) {
      ItemsClear(args, SetOf(names), names[k]);
      if end != [] {
        KeyOfSets(end[0], names[k]);
      }
    }
    hide AllClear, Ends, PopAll, Untangled;
    PopAllThenEnd(items, end, names);
  }

  /** So the order does not matter there, which can be told by reading the list. */
  lemma {:induction false} OrderIrrelevant(args: seq<string>, names: seq<string>, other: seq<string>)
    requires IsFlags(names) && IsFlags(other) && SetOf(names) == SetOf(other) && Untangled(args, SetOf(names))
    ensures PopAll(args, names) == PopAll(args, other)
  {
    hide PopAll, Untangled, ItemsOf, LastOf;
    PopAllUntangled(args, names);
    PopAllUntangled(args, other);
    assert forall name :: name in names <==> name in SetOf(names);
    assert forall name :: name in other <==> name in SetOf(other);
  }

  /** On other lists the order matters: a flag that stands where a value is expected is taken for one. */
  lemma OrderMatters()
    ensures var args := ["--url", "--user", "x"];
      && Pop(args, "--url") == Popped("--user", ["x"]) && Pop(["x"], "--user") == Popped("", ["x"])
      && Pop(args, "--user") == Popped("x", ["--url"]) && Pop(["--url"], "--url") == Popped("", ["--url"])
  {
    var args := ["--url", "--user", "x"];
    assert args[2..] == ["x"] && args[1..] == ["--user", "x"] && args[1..][2..] == [];
    assert ["x"][1..] == [] && ["--url"][1..] == [];
  }
}
