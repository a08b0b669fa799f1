/** Grouping arguments under option names, and the configuration that printing them restores. */
module Arguments {
  import opened Attempts
  import opened CStrings
  import opened Tokenizer

  const OPTIONS: seq<string> := [
    "directories", "persist", "excluded_files", "substitutions", "zookeepers", "brokers", "topic",
    "fields", "tags", "quota", "input", "output", "encoder", "debug", "log"]

  predicate Known(name: string) {
    name in OPTIONS
  }

  lemma KnownExact(name: string)
    ensures Known(name) <==>
      || name == "directories" || name == "persist" || name == "excluded_files" || name == "substitutions"
      || name == "zookeepers" || name == "brokers" || name == "topic" || name == "fields" || name == "tags"
      || name == "quota" || name == "input" || name == "output" || name == "encoder" || name == "debug"
      || name == "log"
  {
  }

  /** Longer than two characters, and starting with two dashes. */
  predicate OptionLike(t: string) {
    |t| > 2 && t[0] == '-' && t[1] == '-'
  }

  function Dashed(name: string): string {
    "--" + name
  }

  /** The items of an option: where they start in the arguments, and how many there are. */
  datatype Slot = Slot(first: nat, count: nat)

  type Slots = map<string, Slot>

  /** What becomes of a list of arguments. It is refused at an option that is not known (or that
      asks for the version); an item before any option is counted through a pointer that was
      never set. */
  datatype Outcome = Accepted(slots: Slots) | Refused | Undefined

  /** The outcome, from argument number `i` on, when `current` is the last option seen. */
  function Grouped(argv: seq<string>, i: nat, current: Option<string>, slots: Slots): (o: Outcome)
    requires i <= |argv| && (current.Some? ==> current.value in slots)
    decreases |argv| - i
  {
    if i == |argv| then Accepted(slots)
    else if OptionLike(argv[i]) then
      var name := argv[i][2..];
      if Known(name) then Grouped(argv, i + 1, Some(name), slots[name := Slot(i + 1, 0)]) else Refused
    else
      match current
      case None => Undefined
      case Some(name) => Grouped(argv, i + 1, current, slots[name := slots[name].(count := slots[name].count + 1)])
  }

  /** The items an option has got; none when it was not given. */
  function Items(argv: seq<string>, slots: Slots, name: string): seq<string> {
    if name in slots && slots[name].first + slots[name].count <= |argv|
    then argv[slots[name].first..slots[name].first + slots[name].count]
    else []
  }

  /** No argument is undefined exactly unless the first is no option; a list is refused exactly when
      it starts with an option and has one that is not known. */
  lemma OutcomeExact(argv: seq<string>)
    ensures var o := Grouped(argv, 0, None, map[]);
      && (o.Undefined? <==> argv != [] && !OptionLike(argv[0]))
      && (o.Refused? <==> argv != [] && OptionLike(argv[0]) && HasUnknown(argv, 0))
  {
    if argv != [] && OptionLike(argv[0]) && Known(argv[0][2..]) {
      OutcomeFrom(argv, 1, argv[0][2..], map[argv[0][2..] := Slot(1, 0)]);
      assert HasUnknown(argv, 0) <==> HasUnknown(argv, 1);
    }
  }

  predicate HasUnknown(argv: seq<string>, i: nat) {
    exists k :: i <= k < |argv| && OptionLike(argv[k]) && !Known(argv[k][2..])
  }

  lemma {:induction false} OutcomeFrom(argv: seq<string>, i: nat, name: string, slots: Slots)
    requires i <= |argv| && name in slots
    ensures var o := Grouped(argv, i, Some(name), slots); !o.Undefined? && (o.Refused? <==> HasUnknown(argv, i))
    decreases |argv| - i
  {
    if i < |argv| {
      assert HasUnknown(argv, i) <==> HasUnknown(argv, i + 1) || (OptionLike(argv[i]) && !Known(argv[i][2..]));
      if OptionLike(argv[i]) {
        var next := argv[i][2..];
        if Known(next) {
          OutcomeFrom(argv, i + 1, next, slots[next := Slot(i + 1, 0)]);
        }
      } else {
        OutcomeFrom(argv, i + 1, name, slots[name := slots[name].(count := slots[name].count + 1)]);
      }
    }
  }

  class Config {
    var slots: Slots

    constructor ()
      ensures slots == map[]
    {
      slots := map[];
    }

    /** Was the list accepted? An item that has no option to go to ends the run here; the parser
        then writes to whatever address its pointer holds. */
    method ParseArguments(argv: seq<string>) returns (outcome: Outcome)
      modifies this
      ensures outcome == Grouped(argv, 0, None, old(slots))
      ensures outcome.Accepted? ==> slots == outcome.slots
    {
      var current: Option<string> := None;
      for i := 0 to |argv|
        invariant current.Some? ==> current.value in slots
        invariant Grouped(argv, i, current, slots) == Grouped(argv, 0, None, old(slots))
      {
        if OptionLike(argv[i]) {
          var name := argv[i][2..];
          if !Known(name) { return Refused; }
          current := Some(name);
          slots := slots[name := Slot(i + 1, 0)];
        } else {
          if current.None? { return Undefined; }
          slots := slots[current.value := slots[current.value].(count := slots[current.value].count + 1)];
        }
      }
      return Accepted(slots);
    }
  }

  // ----- printing -----

  datatype Setting = Setting(name: string, items: seq<string>)

  function Args(conf: seq<Setting>): seq<string> {
    if conf == [] then [] else [Dashed(conf[0].name)] + conf[0].items + Args(conf[1..])
  }

  /** Options that are known, each given once. */
  predicate KnownDistinct(conf: seq<Setting>) {
    && (forall i :: 0 <= i < |conf| ==> Known(conf[i].name))
    && (forall i, j :: 0 <= i < j < |conf| ==> conf[i].name != conf[j].name)
  }

  /** The configuration as the printer lists it. */
  method PrintArgs(conf: seq<Setting>) returns (result: seq<string>)
    ensures result == Args(conf)
  {
    result := [];
    for i := 0 to |conf|
      invariant result + Args(conf[i..]) == Args(conf)
    {
      ghost var before := result;
      result := result + [Dashed(conf[i].name)];
      for k := 0 to |conf[i].items|
        invariant result == before + [Dashed(conf[i].name)] + conf[i].items[..k]
      {
        result := result + [conf[i].items[k]];
      }
      assert conf[i..][1..] == conf[i + 1..];
      assert before + Args(conf[i..]) == result + Args(conf[i + 1..]);
    }
  }

  // ----- what parsing restores -----

  /** An item that can be told from an option and from other items. */
  predicate Plain(t: string) {
    WordShaped(t) && !OptionLike(t)
  }

  lemma PlainExact(t: string)
    ensures Plain(t) <==> t != [] && ' ' !in t && !(|t| > 2 && t[..2] == "--")
  {
  }

  predicate AllPlain(conf: seq<Setting>) {
    forall i, k :: 0 <= i < |conf| && 0 <= k < |conf[i].items| ==> Plain(conf[i].items[k])
  }

  /** The options have the items of the configuration, and no others are given. */
  predicate Restores(argv: seq<string>, slots: Slots, conf: seq<Setting>) {
    && Gives(argv, slots, conf)
    && (forall name <- slots :: Named(conf, name))
  }

  /** Items are counted under the last option, up to the end of them. */
  lemma {:induction false} ItemsCount(argv: seq<string>, i: nat, n: nat, name: string, slots: Slots)
    requires i + n <= |argv| && name in slots
    requires forall k :: i <= k < i + n ==> !OptionLike(argv[k])
    ensures Grouped(argv, i, Some(name), slots) ==
      Grouped(argv, i + n, Some(name), slots[name := slots[name].(count := slots[name].count + n)])
    decreases n
  {
    if n == 0 {
      assert slots[name := slots[name].(count := slots[name].count + 0)] == slots;
    } else {
      var more := slots[name := slots[name].(count := slots[name].count + 1)];
      ItemsCount(argv, i + 1, n - 1, name, more);
      assert more[name := more[name].(count := more[name].count + (n - 1))] ==
        slots[name := slots[name].(count := slots[name].count + n)];
    }
  }

  predicate Named(conf: seq<Setting>, name: string) {
    exists i :: 0 <= i < |conf| && conf[i].name == name
  }

  /** One option and its items. */
  lemma SettingParsed(argv: seq<string>, p: nat, setting: Setting, current: Option<string>, slots: Slots)
    requires p + 1 + |setting.items| <= |argv|
    requires argv[p] == Dashed(setting.name) && argv[p + 1..p + 1 + |setting.items|] == setting.items
    requires Printable(setting)
    requires current.Some? ==> current.value in slots
    ensures var slot := Slot(p + 1, |setting.items|);
      Grouped(argv, p, current, slots) ==
        Grouped(argv, p + 1 + |setting.items|, Some(setting.name), slots[setting.name := slot])
  {
    var name, n := setting.name, |setting.items|;
    assert Dashed(name)[2..] == name && OptionLike(Dashed(name));
    forall k | p + 1 <= k < p + 1 + n ensures !OptionLike(argv[k]) {
      assert argv[k] == setting.items[k - (p + 1)];
    }
    ItemsCount(argv, p + 1, n, name, slots[name := Slot(p + 1, 0)]);
    assert slots[name := Slot(p + 1, 0)][name := Slot(p + 1, n)] == slots[name := Slot(p + 1, n)];
  }

  predicate Gives(argv: seq<string>, slots: Slots, conf: seq<Setting>) {
    forall i :: 0 <= i < |conf| ==> conf[i].name in slots && Items(argv, slots, conf[i].name) == conf[i].items
  }

  ghost predicate SameElsewhere(after: Slots, slots: Slots, conf: seq<Setting>) {
    forall name :: !Named(conf, name) ==>
      (name in after <==> name in slots) && (name in after ==> after[name] == slots[name])
  }

  /** The slots of a configuration printed from argument number `p` on. */
  function Placed(conf: seq<Setting>, p: nat, slots: Slots): Slots {
    if conf == [] then slots
    else Placed(conf[1..], p + 1 + |conf[0].items|, slots[conf[0].name := Slot(p + 1, |conf[0].items|)])
  }

  predicate Printable(setting: Setting) {
    Known(setting.name) && forall k :: 0 <= k < |setting.items| ==> Plain(setting.items[k])
  }

  predicate AllPrintable(conf: seq<Setting>) {
    conf != [] ==> Printable(conf[0]) && AllPrintable(conf[1..])
  }

  /** Parsing what was printed, from some point on. */
  lemma {:induction false} Parsed(argv: seq<string>, p: nat, conf: seq<Setting>, current: Option<string>, slots: Slots)
    requires p <= |argv| && argv[p..] == Args(conf) && AllPrintable(conf)
    requires current.Some? ==> current.value in slots
    ensures Grouped(argv, p, current, slots) == Accepted(Placed(conf, p, slots))
    decreases |conf|
  {
    if conf != [] {
      FirstSetting(argv, p, conf);
      SettingParsed(argv, p, conf[0], current, slots);
      var n, name := |conf[0].items|, conf[0].name;
      Parsed(argv, p + 1 + n, conf[1..], Some(name), slots[name := Slot(p + 1, n)]);
    }
  }

  predicate Distinct(conf: seq<Setting>) {
    conf != [] ==> !Named(conf[1..], conf[0].name) && Distinct(conf[1..])
  }

  /** Each option has its items there, and no other slot has changed. */
  lemma {:induction false} PlacedGives(argv: seq<string>, p: nat, conf: seq<Setting>, slots: Slots)
    requires p <= |argv| && argv[p..] == Args(conf) && Distinct(conf)
    ensures Gives(argv, Placed(conf, p, slots), conf) && SameElsewhere(Placed(conf, p, slots), slots, conf)
    decreases |conf|
  {
    if conf != [] {
      FirstSetting(argv, p, conf);
      var n, name := |conf[0].items|, conf[0].name;
      PlacedGives(argv, p + 1 + n, conf[1..], slots[name := Slot(p + 1, n)]);
      OneMore(argv, p, Placed(conf, p, slots), slots, conf);
    }
  }

  lemma {:induction false} Divides(conf: seq<Setting>)
    requires KnownDistinct(conf) && AllPlain(conf)
    ensures AllPrintable(conf) && Distinct(conf)
  {
    if conf != [] {
      assert KnownDistinct(conf[1..]) && AllPlain(conf[1..]);
      Divides(conf[1..]);
    }
  }

  lemma OneMore(argv: seq<string>, p: nat, after: Slots, slots: Slots, conf: seq<Setting>)
    requires conf != [] && !Named(conf[1..], conf[0].name) && p + 1 + |conf[0].items| <= |argv|
    requires argv[p + 1..p + 1 + |conf[0].items|] == conf[0].items
    requires Gives(argv, after, conf[1..])
    requires SameElsewhere(after, slots[conf[0].name := Slot(p + 1, |conf[0].items|)], conf[1..])
    ensures Gives(argv, after, conf) && SameElsewhere(after, slots, conf)
  {
    OthersNamed(conf);
    forall i | 0 <= i < |conf| ensures conf[i].name in after && Items(argv, after, conf[i].name) == conf[i].items {
      if i > 0 {
        assert conf[1..][i - 1] == conf[i];
      }
    }
  }

  lemma OthersNamed(conf: seq<Setting>)
    requires conf != []
    ensures forall name :: Named(conf, name) <==> name == conf[0].name || Named(conf[1..], name)
  {
    forall name ensures Named(conf, name) <==> name == conf[0].name || Named(conf[1..], name) {
      if Named(conf, name) {
        var i :| 0 <= i < |conf| && conf[i].name == name;
        assert i > 0 ==> conf[1..][i - 1].name == name;
      }
      if Named(conf[1..], name) {
        var i :| 0 <= i < |conf[1..]| && conf[1..][i].name == name;
        assert conf[i + 1].name == name;
      }
    }
  }

  lemma FirstSetting(argv: seq<string>, p: nat, conf: seq<Setting>)
    requires p <= |argv| && conf != [] && argv[p..] == Args(conf)
    ensures var n := |conf[0].items|;
      && p + 1 + n <= |argv| && argv[p] == Dashed(conf[0].name)
      && argv[p + 1..p + 1 + n] == conf[0].items && argv[p + 1 + n..] == Args(conf[1..])
  {
    var n, rest := |conf[0].items|, argv[p..];
    assert rest == [Dashed(conf[0].name)] + conf[0].items + Args(conf[1..]);
    assert rest[0] == argv[p] && rest[1..1 + n] == argv[p + 1..p + 1 + n] && rest[1 + n..] == argv[p + 1 + n..];
    assert rest[1..1 + n] == conf[0].items && rest[1 + n..] == Args(conf[1..]);
  }

  /** Every option's items stand before position `i` and none of them looks like an option; those
      of the last option end right there. */
  predicate Tidy(argv: seq<string>, i: nat, current: Option<string>, slots: Slots) {
    && (current.Some? ==> current.value in slots && slots[current.value].first + slots[current.value].count == i)
    && forall name <- slots :: TidySlot(argv, i, slots[name])
  }

  predicate TidySlot(argv: seq<string>, i: nat, slot: Slot) {
    && slot.first + slot.count <= i <= |argv|
    && forall k :: slot.first <= k < slot.first + slot.count ==> !OptionLike(argv[k])
  }

  lemma {:induction false} StaysTidy(argv: seq<string>, i: nat, current: Option<string>, slots: Slots)
    requires i <= |argv| && Tidy(argv, i, current, slots)
    ensures var o := Grouped(argv, i, current, slots); o.Accepted? ==> Tidy(argv, |argv|, None, o.slots)
    decreases |argv| - i
  {
    if i < |argv| {
      assert forall name <- slots :: TidySlot(argv, i + 1, slots[name]);
      if OptionLike(argv[i]) {
        var name := argv[i][2..];
        if Known(name) {
          StaysTidy(argv, i + 1, Some(name), slots[name := Slot(i + 1, 0)]);
        }
      } else if current.Some? {
        var name := current.value;
        StaysTidy(argv, i + 1, current, slots[name := slots[name].(count := slots[name].count + 1)]);
      }
    }
  }

  /** The outcome of printing a configuration, cutting the line and grouping the words. */
  function Reloaded(conf: seq<Setting>): (o: Outcome)
  {
    Grouped(Words(Join(Args(conf)), 0), 0, None, map[])
  }

  predicate Restored(conf: seq<Setting>) {
    var o := Reloaded(conf);
    o.Accepted? && Restores(Words(Join(Args(conf)), 0), o.slots, conf)
  }

  /** A configuration with known and distinct options comes back with exactly the items of each
      option if and only if every item is nonempty, has no space and does not look like an option. */
  lemma RestoredExact(conf: seq<Setting>)
    requires KnownDistinct(conf)
    ensures Restored(conf) <==> AllPlain(conf)
  {
    var argv := Words(Join(Args(conf)), 0);
    if AllPlain(conf) {
      ArgsShaped(conf);
      JoinExact(Args(conf));
      assert argv[0..] == Args(conf);
      Divides(conf);
      Parsed(argv, 0, conf, None, map[]);
      PlacedGives(argv, 0, conf, map[]);
      assert forall name <- Placed(conf, 0, map[]) :: Named(conf, name);
    }
    if Restored(conf) {
      StaysTidy(argv, 0, None, map[]);
      WordsShaped(Join(Args(conf)), 0);
      ItemsPlain(argv, Reloaded(conf).slots, conf);
    }
  }

  lemma ItemsPlain(argv: seq<string>, slots: Slots, conf: seq<Setting>)
    requires Tidy(argv, |argv|, None, slots) && Restores(argv, slots, conf)
    requires forall j :: 0 <= j < |argv| ==> WordShaped(argv[j])
    ensures AllPlain(conf)
  {
    forall i, k | 0 <= i < |conf| && 0 <= k < |conf[i].items| ensures Plain(conf[i].items[k]) {
      var slot := slots[conf[i].name];
      assert TidySlot(argv, |argv|, slot);
      assert conf[i].items[k] == argv[slot.first + k];
    }
  }

  lemma KnownShaped(name: string)
    requires Known(name)
    ensures WordShaped(Dashed(name))
  {
    assert forall i :: 0 <= i < |OPTIONS| ==> SPACE !in OPTIONS[i];
  }

  lemma {:induction false} ArgsShaped(conf: seq<Setting>)
    requires AllPlain(conf) && KnownDistinct(conf)
    ensures forall j :: 0 <= j < |Args(conf)| ==> WordShaped(Args(conf)[j])
  {
    if conf != [] {
      assert KnownDistinct(conf[1..]) && AllPlain(conf[1..]);
      ArgsShaped(conf[1..]);
      KnownShaped(conf[0].name);
      assert forall k :: 0 <= k < |conf[0].items| ==> WordShaped(conf[0].items[k]);
    }
  }

  /** The whole way of a configuration without NULs: printed, cut in place, and its words, read
      through the pointers into the line, grouped. */
  method Reload(conf: seq<Setting>, config: Config) returns (outcome: Outcome)
    requires config.slots == map[] && NUL !in Join(Args(conf))
    modifies config
    ensures outcome == Reloaded(conf)
    ensures outcome.Accepted? ==> config.slots == outcome.slots
  {
    var args := PrintArgs(conf);
    var text := Join(args);
    var line := new char[|text| + 1](i => if 0 <= i < |text| then text[i] else NUL);
    assert line[..] == text + [NUL];
    var argv := Parse(line, |text|, text);
    var words := ReadWords(line, argv, text);
    outcome := config.ParseArguments(words);
  }

  /** The words of a line once cut, read through the pointers into it. */
  method ReadWords(line: array<char>, argv: array<nat>, ghost text: string) returns (words: seq<string>)
    requires Cut(line[..], text) && NUL !in text && argv[..] == Starts(text, 0)
    ensures words == Words(text, 0)
  {
    words := [];
    ghost var cut := line[..];
    WordsAre(text, 0);
    for j := 0 to argv.Length
      invariant |words| == j && line[..] == cut && |argv[..]| == |Words(text, 0)|
      invariant forall k :: 0 <= k < j ==> words[k] == Words(text, 0)[k]
    {
      var word := ReadWord(line, argv, j, text);
      words := words + [word];
    }
  }

  method ReadWord(line: array<char>, argv: array<nat>, j: nat, ghost text: string) returns (word: string)
    requires Cut(line[..], text) && NUL !in text && argv[..] == Starts(text, 0) && j < argv.Length
    ensures j < |Words(text, 0)| && word == Words(text, 0)[j]
  {
    PointersRead(line[..], text, j);
    assert argv[j] == argv[..][j];
    word := CString(line[..], argv[j]);
  }
}
