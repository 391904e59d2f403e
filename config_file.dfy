// The configuration store: options registered under dotted names ("Server.Port"),
// the tree of sections the dots describe, the bounded and validated setters, the
// Lua text the store saves, and the verdict of loading a file.

module Config {
  import opened Voxel
  import opened Decimal

  type Int64 = i: int | -0x8000_0000_0000_0000 <= i <= 0x7FFF_FFFF_FFFF_FFFF

  type Validation<!T> = Option<T -> Result<T, string>>

  /** The four kinds of option (`BoolOption`, `FloatOption`, `IntegerOption`,
      `StringOption`); doubles are reals here. */
  datatype ConfigData =
    | BoolOption(boolValue: bool, boolDefault: Option<bool>)
    | FloatOption(floatMax: real, floatMin: real, floatValue: real,
                  floatValidation: Validation<real>, floatDefault: Option<real>)
    | IntegerOption(intMax: Int64, intMin: Int64, intValue: Int64,
                    intValidation: Validation<Int64>, intDefault: Option<Int64>)
    | StringOption(stringValue: string, stringValidation: Validation<string>, stringDefault: Option<string>)

  datatype ConfigValue = BoolValue(b: bool) | FloatValue(r: real) | IntegerValue(i: Int64) | StringValue(s: string)

  datatype ConfigOption = ConfigOption(index: nat, name: string, data: ConfigData)

  /** A section: its own name ("" for the global one), its options by name, and its
      subsections by name. Both tables are kept in insertion order with unique keys. */
  datatype ConfigSection = ConfigSection(
    sectionName: string, options: seq<(string, nat)>, subsections: seq<(string, ConfigSection)>)

  predicate HasDefault(data: ConfigData) {
    match data
    case BoolOption(_, d) => d.Some?
    case FloatOption(_, _, _, _, d) => d.Some?
    case IntegerOption(_, _, _, _, d) => d.Some?
    case StringOption(_, _, d) => d.Some?
  }

  // ---------------------------------------------------------------------------
  // Dotted names

  /** The first `c` at or after `from`. */
  function FindFrom(s: string, c: char, from: nat): (r: Option<nat>)
    requires from <= |s|
    ensures r.Some? ==> from <= r.value < |s| && s[r.value] == c
    decreases |s| - from
  {
    if from == |s| then None
    else if s[from] == c then Some(from)
    else FindFrom(s, c, from + 1)
  }

  /** `FindFrom` finds the first `c`: none lies between `from` and its answer. */
  lemma {:induction false} FindFromFirst(s: string, c: char, from: nat)
    requires from <= |s|
    ensures var r := FindFrom(s, c, from);
            forall k :: from <= k < (if r.Some? then r.value else |s|) ==> s[k] != c
    decreases |s| - from
  {
    if from < |s| && s[from] != c {
      FindFromFirst(s, c, from + 1);
    }
  }

  /** The '.'-separated segments of `s[from..]`. */
  function SegmentsFrom(s: string, from: nat): (segs: seq<string>)
    requires from <= |s|
    ensures |segs| > 0
    decreases |s| - from
  {
    var dot := FindFrom(s, '.', from);
    if dot.None? then [s[from..]] else [s[from..dot.value]] + SegmentsFrom(s, dot.value + 1)
  }

  function Segments(name: string): seq<string> {
    SegmentsFrom(name, 0)
  }

  function Join(segs: seq<string>): string
    requires |segs| > 0
  {
    if |segs| == 1 then segs[0] else segs[0] + "." + Join(segs[1..])
  }

  /** Joining the segments with dots gives the name back. */
  lemma {:induction false} JoinSegmentsFrom(s: string, from: nat)
    requires from <= |s|
    ensures Join(SegmentsFrom(s, from)) == s[from..]
    ensures forall i :: 0 <= i < |SegmentsFrom(s, from)| ==> '.' !in SegmentsFrom(s, from)[i]
    decreases |s| - from
  {
    var dot := FindFrom(s, '.', from);
    FindFromFirst(s, '.', from);
    if dot.Some? {
      var segs := SegmentsFrom(s, from);
      JoinSegmentsFrom(s, dot.value + 1);
      assert segs[1..] == SegmentsFrom(s, dot.value + 1);
      assert s[from..] == s[from..dot.value] + "." + s[dot.value + 1..];
      forall i | 0 <= i < |segs|
        ensures '.' !in segs[i]
      {
        if i > 0 {
          assert segs[i] == segs[1..][i - 1];
        }
      }
    }
  }

  lemma JoinSegments(name: string)
    ensures Join(Segments(name)) == name
    ensures forall i :: 0 <= i < |Segments(name)| ==> '.' !in Segments(name)[i]
  {
    JoinSegmentsFrom(name, 0);
    assert name[0..] == name;
  }

  /** Different names never share their segments. */
  lemma SegmentsInjective(a: string, b: string)
    requires Segments(a) == Segments(b)
    ensures a == b
  {
    JoinSegments(a);
    JoinSegments(b);
  }

  /** `ForEachSection`: every segment before the last goes to `sectionCB`, the last to
      `varCB`; the walk stops at the first section callback answering false. `calls`
      lists the segments handed out. */
  method ForEachSection(varName: string, sectionCB: string -> bool, varCB: string -> bool)
    returns (ok: bool, calls: seq<string>)
    ensures |calls| > 0 && |calls| <= |Segments(varName)| && calls == Segments(varName)[..|calls|]
    ensures forall i :: 0 <= i < |calls| - 1 ==> sectionCB(calls[i])
    ensures |calls| < |Segments(varName)| ==> !sectionCB(calls[|calls| - 1]) && !ok
    ensures |calls| == |Segments(varName)| ==> ok == varCB(calls[|calls| - 1])
  {
    var stopped, previousPos;
    stopped, calls, previousPos := WalkSections(varName, sectionCB);
    if stopped {
      return false, calls;
    }
    var last := varName[previousPos..];
    SegmentsStep(varName, previousPos);
    calls := calls + [last];
    ok := varCB(last);
  }

  /** The loop of `ForEachSection`: the sections up to the last dot, or up to the
      first one `sectionCB` refuses. */
  method WalkSections(varName: string, sectionCB: string -> bool)
    returns (stopped: bool, calls: seq<string>, previousPos: nat)
    ensures previousPos <= |varName|
    ensures stopped ==> |calls| > 0 && |calls| < |Segments(varName)| && calls == Segments(varName)[..|calls|]
    ensures stopped ==> !sectionCB(calls[|calls| - 1]) && forall i :: 0 <= i < |calls| - 1 ==> sectionCB(calls[i])
    ensures !stopped ==> FindFrom(varName, '.', previousPos).None? && Walked(varName, previousPos, calls)
    ensures !stopped ==> forall i :: 0 <= i < |calls| ==> sectionCB(calls[i])
  {
    var pos := FindFrom(varName, '.', 0);
    previousPos := 0;
    calls := [];
    while pos.Some?
      invariant previousPos <= |varName| && pos == FindFrom(varName, '.', previousPos)
      invariant Walked(varName, previousPos, calls)
      invariant forall i :: 0 <= i < |calls| ==> sectionCB(calls[i])
      decreases |varName| - previousPos
    {
      var section := varName[previousPos..pos.value];
      Advance(varName, previousPos, calls);
      if !sectionCB(section) {
        Refused(varName, pos.value + 1, calls, section, sectionCB);
        return true, calls + [section], previousPos;
      }
      PassingExtends(calls, section, sectionCB);
      calls := calls + [section];
      previousPos := pos.value + 1;
      pos := FindFrom(varName, '.', previousPos);
    }
    stopped := false;
  }

  /** One turn of the loop: the segment up to the next dot, then the rest. */
  lemma SegmentsStep(s: string, from: nat)
    requires from <= |s|
    ensures var dot := FindFrom(s, '.', from);
            SegmentsFrom(s, from) == if dot.None? then [s[from..]] else [s[from..dot.value]] + SegmentsFrom(s, dot.value + 1)
  {
  }

  /** The segments handed out so far, followed by those of the rest of the name,
      are the segments of the whole name. */
  ghost predicate Walked(s: string, from: nat, calls: seq<string>)
    requires from <= |s|
  {
    calls + SegmentsFrom(s, from) == Segments(s)
  }

  lemma Advance(s: string, from: nat, calls: seq<string>)
    requires from <= |s| && FindFrom(s, '.', from).Some? && Walked(s, from, calls)
    ensures var dot := FindFrom(s, '.', from).value;
            Walked(s, dot + 1, calls + [s[from..dot]])
  {
    var dot := FindFrom(s, '.', from).value;
    SegmentsStep(s, from);
    AppendAssoc(calls, [s[from..dot]], SegmentsFrom(s, dot + 1));
  }

  lemma PassingExtends(calls: seq<string>, section: string, sectionCB: string -> bool)
    requires forall i :: 0 <= i < |calls| ==> sectionCB(calls[i])
    ensures sectionCB(section) ==> forall i :: 0 <= i < |calls + [section]| ==> sectionCB((calls + [section])[i])
  {
  }

  /** The loop's early exit: the refused section ends a proper prefix of the
      segments, after sections that all passed. */
  lemma Refused(s: string, next: nat, done: seq<string>, section: string, sectionCB: string -> bool)
    requires next <= |s| && Walked(s, next, done + [section])
    requires forall i :: 0 <= i < |done| ==> sectionCB(done[i])
    requires !sectionCB(section)
    ensures var calls := done + [section];
            |calls| < |Segments(s)| && calls == Segments(s)[..|calls|]
            && !sectionCB(calls[|calls| - 1]) && forall i :: 0 <= i < |calls| - 1 ==> sectionCB(calls[i])
  {
    var calls := done + [section];
    PrefixOfSum(calls, SegmentsFrom(s, next), Segments(s));
    forall i | 0 <= i < |calls| - 1
      ensures sectionCB(calls[i])
    {
      assert calls[i] == done[i];
    }
  }

  lemma AppendAssoc<T>(a: seq<T>, b: seq<T>, c: seq<T>)
    ensures a + (b + c) == (a + b) + c
  {
  }

  lemma PrefixOfSum(a: seq<string>, b: seq<string>, c: seq<string>)
    requires a + b == c
    ensures |a| <= |c| && c[..|a|] == a
  {
    assert c[..|a|] == (a + b)[..|a|];
  }

  // ---------------------------------------------------------------------------
  // The section tree

  function FindEntry<T>(entries: seq<(string, T)>, key: string): (r: Option<nat>)
    ensures r.Some? ==> r.value < |entries| && entries[r.value].0 == key
    ensures r.None? ==> forall k :: 0 <= k < |entries| ==> entries[k].0 != key
  {
    if entries == [] then None
    else if entries[|entries| - 1].0 == key then Some(|entries| - 1)
    else FindEntry(entries[..|entries| - 1], key)
  }

  function Lookup<T>(entries: seq<(string, T)>, key: string): Option<T> {
    var k := FindEntry(entries, key);
    if k.Some? then Some(entries[k.value].1) else None
  }

  /** `emplace`: a new key is appended, an existing one keeps its value. */
  function Emplace<T>(entries: seq<(string, T)>, key: string, value: T): (r: seq<(string, T)>)
    ensures Lookup(r, key) == if Lookup(entries, key).Some? then Lookup(entries, key) else Some(value)
    ensures forall other :: other != key ==> Lookup(r, other) == Lookup(entries, other)
  {
    if FindEntry(entries, key).Some? then entries
    else
      var r := entries + [(key, value)];
      assert forall other :: other != key ==> FindEntry(r, other) == FindEntry(entries, other) by {
        forall other | other != key ensures FindEntry(r, other) == FindEntry(entries, other) {
          assert r[..|r| - 1] == entries;
        }
      }
      r
  }

  /** Replaces the value of an existing key, or appends the key. */
  function Put<T>(entries: seq<(string, T)>, key: string, value: T): (r: seq<(string, T)>)
    ensures Lookup(r, key) == Some(value)
    ensures forall other :: other != key ==> Lookup(r, other) == Lookup(entries, other)
  {
    var k := FindEntry(entries, key);
    if k.Some? then PutAt(entries, k.value, key, value) else Emplace(entries, key, value)
  }

  function PutAt<T>(entries: seq<(string, T)>, k: nat, key: string, value: T): (r: seq<(string, T)>)
    requires FindEntry(entries, key) == Some(k)
    ensures |r| == |entries|
    ensures forall j :: 0 <= j < |r| ==> r[j].0 == entries[j].0
    ensures Lookup(r, key) == Some(value)
    ensures forall other :: other != key ==> Lookup(r, other) == Lookup(entries, other)
  {
    var r := entries[k := (key, value)];
    LookupSameKeys(r, entries, key, value, k);
    r
  }

  lemma {:induction false} LookupSameKeys<T>(r: seq<(string, T)>, entries: seq<(string, T)>, key: string, value: T, k: nat)
    requires FindEntry(entries, key) == Some(k) && r == entries[k := (key, value)]
    ensures forall other :: FindEntry(r, other) == FindEntry(entries, other)
    ensures Lookup(r, key) == Some(value)
    ensures forall other :: other != key ==> Lookup(r, other) == Lookup(entries, other)
  {
    SameKeysFind(r, entries);
  }

  /** Two tables with the same keys in the same positions find keys alike. */
  lemma {:induction false} SameKeysFind<T>(a: seq<(string, T)>, b: seq<(string, T)>)
    requires |a| == |b| && forall j :: 0 <= j < |a| ==> a[j].0 == b[j].0
    ensures forall key :: FindEntry(a, key) == FindEntry(b, key)
  {
    if a != [] {
      SameKeysFind(a[..|a| - 1], b[..|b| - 1]);
    }
  }

  /** The option index registered under a dotted name's segments. */
  function OptionAt(section: ConfigSection, segs: seq<string>): Option<nat>
    requires |segs| > 0
    decreases segs
  {
    if |segs| == 1 then Lookup(section.options, segs[0])
    else
      var sub := Lookup(section.subsections, segs[0]);
      if sub.None? then None else OptionAt(sub.value, segs[1..])
  }

  /** The subsection `name`, or a new empty one with that name. */
  function SubsectionOrNew(section: ConfigSection, name: string): ConfigSection {
    var sub := Lookup(section.subsections, name);
    if sub.Some? then sub.value else ConfigSection(name, [], [])
  }

  /** The tree after `RegisterConfig`: each segment before the last names a
      subsection, created when missing; the last one is emplaced among the options of
      the innermost section. */
  function Registered(section: ConfigSection, segs: seq<string>, index: nat): (r: ConfigSection)
    requires |segs| > 0
    ensures r.sectionName == section.sectionName
    decreases segs
  {
    if |segs| == 1 then section.(options := Emplace(section.options, segs[0], index))
    else
      var sub := Registered(SubsectionOrNew(section, segs[0]), segs[1..], index);
      section.(subsections := Put(section.subsections, segs[0], sub))
  }

  /** Registering fills the name's slot unless it was taken, and leaves every other
      slot as it was. */
  lemma {:induction false} RegisteredSlots(section: ConfigSection, segs: seq<string>, index: nat, other: seq<string>)
    requires |segs| > 0 && |other| > 0
    ensures OptionAt(Registered(section, segs, index), other) ==
              if other != segs then OptionAt(section, other)
              else if OptionAt(section, segs).Some? then OptionAt(section, segs) else Some(index)
    decreases segs, 1
  {
    if |segs| == 1 {
      RegisteredLeaf(section, segs[0], index, other);
    } else if |other| == 1 || other[0] != segs[0] {
      RegisteredAside(section, segs, index, other);
    } else {
      RegisteredBelowHead(section, segs, index, other);
    }
  }

  /** The last segment: only the options of this section change. */
  lemma RegisteredLeaf(section: ConfigSection, name: string, index: nat, other: seq<string>)
    requires |other| > 0
    ensures OptionAt(Registered(section, [name], index), other) ==
              if other != [name] then OptionAt(section, other)
              else if OptionAt(section, [name]).Some? then OptionAt(section, [name]) else Some(index)
  {
    var r := Registered(section, [name], index);
    assert r.subsections == section.subsections;
    if |other| == 1 {
      assert other == [name] <==> other[0] == name;
    }
  }

  /** A slot outside the subsection the name goes into is untouched. */
  lemma RegisteredAside(section: ConfigSection, segs: seq<string>, index: nat, other: seq<string>)
    requires |segs| > 1 && |other| > 0 && (|other| == 1 || other[0] != segs[0])
    ensures OptionAt(Registered(section, segs, index), other) == OptionAt(section, other)
  {
    var r := Registered(section, segs, index);
    assert r.options == section.options;
    if |other| > 1 {
      assert Lookup(r.subsections, other[0]) == Lookup(section.subsections, other[0]);
    }
  }

  /** A slot inside that subsection: the same question one level down. */
  lemma {:induction false} RegisteredBelowHead(section: ConfigSection, segs: seq<string>, index: nat, other: seq<string>)
    requires |segs| > 1 && |other| > 1 && other[0] == segs[0]
    ensures OptionAt(Registered(section, segs, index), other) ==
              if other != segs then OptionAt(section, other)
              else if OptionAt(section, segs).Some? then OptionAt(section, segs) else Some(index)
    decreases segs, 0
  {
    var sub := SubsectionOrNew(section, segs[0]);
    var r := Registered(section, segs, index);
    RegisteredSlots(sub, segs[1..], index, other[1..]);
    assert Lookup(r.subsections, other[0]) == Some(Registered(sub, segs[1..], index));
    assert OptionAt(r, other) == OptionAt(Registered(sub, segs[1..], index), other[1..]);
    if Lookup(section.subsections, segs[0]).None? {
      EmptySectionHasNothing(segs[0], other[1..]);
      EmptySectionHasNothing(segs[0], segs[1..]);
    }
    assert OptionAt(section, other) == OptionAt(sub, other[1..]);
    assert OptionAt(section, segs) == OptionAt(sub, segs[1..]);
    assert other == segs <==> other[1..] == segs[1..] by {
      if other[1..] == segs[1..] {
        assert other == [other[0]] + other[1..];
        assert segs == [segs[0]] + segs[1..];
      }
    }
  }

  lemma {:induction false} EmptySectionHasNothing(name: string, segs: seq<string>)
    requires |segs| > 0
    ensures OptionAt(ConfigSection(name, [], []), segs).None?
  {
  }

  /** Every option index stored in the tree is below `n`. */
  predicate IndicesBelow(section: ConfigSection, n: nat)
    decreases section
  {
    && (forall k :: 0 <= k < |section.options| ==> section.options[k].1 < n)
    && (forall k :: 0 <= k < |section.subsections| ==> IndicesBelow(section.subsections[k].1, n))
  }

  lemma {:induction false} LookupBelow(section: ConfigSection, name: string, n: nat)
    requires IndicesBelow(section, n)
    ensures var s := Lookup(section.subsections, name); s.Some? ==> IndicesBelow(s.value, n)
  {
  }

  lemma {:induction false} RegisteredBelow(section: ConfigSection, segs: seq<string>, index: nat, n: nat)
    requires |segs| > 0 && IndicesBelow(section, n) && index < n
    ensures IndicesBelow(Registered(section, segs, index), n)
    decreases segs
  {
    if |segs| == 1 {
      var opts := Emplace(section.options, segs[0], index);
      assert opts == section.options || opts == section.options + [(segs[0], index)];
    } else {
      var old_sub := SubsectionOrNew(section, segs[0]);
      LookupBelow(section, segs[0], n);
      RegisteredBelow(old_sub, segs[1..], index, n);
      var sub := Registered(old_sub, segs[1..], index);
      var subs := Put(section.subsections, segs[0], sub);
      var k := FindEntry(section.subsections, segs[0]);
      if k.Some? {
        assert subs == section.subsections[k.value := (segs[0], sub)];
      } else {
        assert subs == section.subsections + [(segs[0], sub)];
      }
    }
  }

  /** The option's default, if any, would be accepted by its setter. */
  predicate DefaultAccepted(data: ConfigData) {
    match data
    case BoolOption(_, d) => true
    case FloatOption(_, _, _, _, d) => d.Some? ==> SetFloat(data, d.value).accepted
    case IntegerOption(_, _, _, _, d) => d.Some? ==> SetInteger(data, d.value).accepted
    case StringOption(_, _, d) => d.Some? ==> SetString(data, d.value).accepted
  }

  // ---------------------------------------------------------------------------
  // Setting values

  function Validate<T>(validation: Validation<T>, value: T): Result<T, string> {
    if validation.Some? then validation.value(value) else Ok(value)
  }

  /** The outcome of a setter on one option: whether the value was accepted, the
      option afterwards, and the value `OnValueUpdate` announced, if any. */
  datatype SetOutcome = SetOutcome(accepted: bool, data: ConfigData, update: Option<ConfigValue>)

  /** `SetIntegerValue` on its option: values above the maximum or below the minimum
      are refused, then the validator (if any) may refuse or rewrite the value; an
      accepted value is stored and announced only when it differs from the stored
      one. */
  function SetInteger(data: ConfigData, value: Int64): (r: SetOutcome)
    requires data.IntegerOption?
    ensures !r.accepted ==> r.data == data && r.update.None?
    ensures r.accepted <==> data.intMin <= value <= data.intMax && Validate(data.intValidation, value).Ok?
    ensures r.accepted ==>
              var stored := Validate(data.intValidation, value).value;
              && r.data == data.(intValue := stored)
              && (r.update.Some? <==> stored != data.intValue)
              && (r.update.Some? ==> r.update == Some(IntegerValue(stored)))
  {
    if value > data.intMax || value < data.intMin then SetOutcome(false, data, None)
    else
      var checked := Validate(data.intValidation, value);
      if checked.Err? then SetOutcome(false, data, None)
      else if data.intValue != checked.value then SetOutcome(true, data.(intValue := checked.value), Some(IntegerValue(checked.value)))
      else SetOutcome(true, data, None)
  }

  /** `SetFloatValue`: the same rules with reals. */
  function SetFloat(data: ConfigData, value: real): (r: SetOutcome)
    requires data.FloatOption?
    ensures !r.accepted ==> r.data == data && r.update.None?
    ensures r.accepted <==> data.floatMin <= value <= data.floatMax && Validate(data.floatValidation, value).Ok?
    ensures r.accepted ==>
              var stored := Validate(data.floatValidation, value).value;
              && r.data == data.(floatValue := stored)
              && (r.update.Some? <==> stored != data.floatValue)
              && (r.update.Some? ==> r.update == Some(FloatValue(stored)))
  {
    if value > data.floatMax || value < data.floatMin then SetOutcome(false, data, None)
    else
      var checked := Validate(data.floatValidation, value);
      if checked.Err? then SetOutcome(false, data, None)
      else if data.floatValue != checked.value then SetOutcome(true, data.(floatValue := checked.value), Some(FloatValue(checked.value)))
      else SetOutcome(true, data, None)
  }

  /** `SetStringValue`: no bounds, only the validator. */
  function SetString(data: ConfigData, value: string): (r: SetOutcome)
    requires data.StringOption?
    ensures !r.accepted ==> r.data == data && r.update.None?
    ensures r.accepted <==> Validate(data.stringValidation, value).Ok?
    ensures r.accepted ==>
              var stored := Validate(data.stringValidation, value).value;
              && r.data == data.(stringValue := stored)
              && (r.update.Some? <==> stored != data.stringValue)
              && (r.update.Some? ==> r.update == Some(StringValue(stored)))
  {
    var checked := Validate(data.stringValidation, value);
    if checked.Err? then SetOutcome(false, data, None)
    else if data.stringValue != checked.value then SetOutcome(true, data.(stringValue := checked.value), Some(StringValue(checked.value)))
    else SetOutcome(true, data, None)
  }

  /** Setting a value twice announces it at most once: the second call finds it
      stored already (for validators that keep an accepted value as it is). */
  lemma SetIntegerTwice(data: ConfigData, value: Int64)
    requires data.IntegerOption? && SetInteger(data, value).accepted
    requires Validate(data.intValidation, Validate(data.intValidation, value).value) == Validate(data.intValidation, value)
    ensures var once := SetInteger(data, value); SetInteger(once.data, value) == SetOutcome(true, once.data, None)
  {
  }

  // ---------------------------------------------------------------------------
  // Saving

  /** `Nz::ReplaceStr(value, "\"", "\\\"")`. */
  function EscapeQuotes(s: string): (r: string)
    ensures |r| >= |s|
  {
    if s == [] then []
    else (if s[0] == '"' then "\\\"" else [s[0]]) + EscapeQuotes(s[1..])
  }

  /** Reading an escaped text back: `\"` stands for a quote. */
  function UnescapeQuotes(s: string): string
    decreases |s|
  {
    if |s| >= 2 && s[0] == '\\' && s[1] == '"' then "\"" + UnescapeQuotes(s[2..])
    else if s == [] then []
    else [s[0]] + UnescapeQuotes(s[1..])
  }

  /** Escaping loses nothing for texts without backslashes, and leaves no quote that
      is not preceded by a backslash. */
  lemma {:induction false} EscapeRoundTrip(s: string)
    requires '\\' !in s
    ensures UnescapeQuotes(EscapeQuotes(s)) == s
    ensures forall i :: 0 <= i < |EscapeQuotes(s)| && EscapeQuotes(s)[i] == '"' ==> i > 0 && EscapeQuotes(s)[i - 1] == '\\'
  {
    if s != [] {
      EscapeRoundTrip(s[1..]);
      var e := EscapeQuotes(s);
      var head := if s[0] == '"' then "\\\"" else [s[0]];
      assert e == head + EscapeQuotes(s[1..]);
      if s[0] == '"' {
        assert e[2..] == EscapeQuotes(s[1..]);
      } else {
        assert e[1..] == EscapeQuotes(s[1..]);
      }
      forall i | 0 <= i < |e| && e[i] == '"'
        ensures i > 0 && e[i - 1] == '\\'
      {
        if i >= |head| {
          var j := i - |head|;
          assert EscapeQuotes(s[1..])[j] == '"';
          if j == 0 {
            assert false;
          }
        }
      }
    }
  }

  /** The text written for a value; `formatReal` is the stream's formatting of a
      double. */
  function ValueText(data: ConfigData, formatReal: real -> string): string {
    match data
    case BoolOption(v, _) => if v then "true" else "false"
    case FloatOption(_, _, v, _, _) => formatReal(v)
    case IntegerOption(_, _, v, _, _) => IntToString(v)
    case StringOption(v, _, _) => "\"" + EscapeQuotes(v) + "\""
  }

  /** The line of one option: entries of a named section end with a comma. */
  function OptionLine(indent: string, name: string, data: ConfigData, global: bool, formatReal: real -> string): (line: string)
    ensures |line| > |indent| + |name| + 3 && line[..|indent|] == indent && line[|line| - 1] == '\n'
    ensures !global ==> line[|line| - 2] == ','
  {
    var head := indent + name + " = " + ValueText(data, formatReal);
    var tail := if global then "\n" else ",\n";
    assert (head + tail)[..|indent|] == head[..|indent|];
    assert (head + tail)[|head| + |tail| - 1] == tail[|tail| - 1];
    assert !global ==> (head + tail)[|head| + |tail| - 2] == tail[|tail| - 2];
    head + tail
  }

  function Tabs(n: nat): (s: string)
    ensures |s| == n && forall i :: 0 <= i < n ==> s[i] == '\t'
  {
    if n == 0 then [] else Tabs(n - 1) + "\t"
  }

  function OptionLines(options: seq<ConfigOption>, entries: seq<(string, nat)>, indent: string, global: bool, formatReal: real -> string): string
    requires forall k :: 0 <= k < |entries| ==> entries[k].1 < |options|
  {
    if entries == [] then []
    else
      var e := entries[|entries| - 1];
      OptionLines(options, entries[..|entries| - 1], indent, global, formatReal)
      + OptionLine(indent, e.0, options[e.1].data, global, formatReal)
  }

  /** The text `SaveSectionToFile` writes: the section's options, then each subsection
      as `name = {` … `}`, followed by a comma except at the global level. */
  function SectionText(options: seq<ConfigOption>, section: ConfigSection, indentCount: nat, formatReal: real -> string): string
    requires IndicesBelow(section, |options|)
    decreases section, 1
  {
    OptionLines(options, section.options, Tabs(indentCount), section.sectionName == "", formatReal)
    + SubsectionsText(options, section.subsections, |section.subsections|, indentCount, section.sectionName == "", formatReal)
  }

  function SubsectionsText(options: seq<ConfigOption>, subs: seq<(string, ConfigSection)>, n: nat, indentCount: nat, global: bool, formatReal: real -> string): string
    requires n <= |subs| && forall k :: 0 <= k < |subs| ==> IndicesBelow(subs[k].1, |options|)
    decreases subs, 0, n
  {
    if n == 0 then []
    else
      SubsectionsText(options, subs, n - 1, indentCount, global, formatReal)
      + SubsectionText(options, subs[n - 1], indentCount, global, formatReal)
  }

  function SubsectionText(options: seq<ConfigOption>, sub: (string, ConfigSection), indentCount: nat, global: bool, formatReal: real -> string): string
    requires IndicesBelow(sub.1, |options|)
    decreases sub, 2
  {
    Tabs(indentCount) + sub.0 + " = {\n"
    + SectionText(options, sub.1, indentCount + 1, formatReal)
    + Tabs(indentCount) + "}" + (if global then "" else ",") + "\n"
  }

  // ---------------------------------------------------------------------------
  // Loading

  /** What reading one Lua table found: whether an option without a default failed
      to load in it, and the tables of its subsections. */
  datatype LoadTable = LoadTable(failedWithoutDefault: bool, subtables: seq<LoadTable>)

  /** `LoadSection` as written: it returns its `hasError` flag, but it marks an error
      when a subsection's call returns false. */
  predicate LoadSectionAsWritten(t: LoadTable)
    decreases t
  {
    t.failedWithoutDefault || exists k :: 0 <= k < |t.subtables| && !LoadSectionAsWritten(t.subtables[k])
  }

  /** `LoadFromFile`'s verdict as written: a script that fails to run or throws is
      refused; otherwise a false result of `LoadSection` is taken for an error, and so
      is a missing option without default. */
  predicate LoadFromFileAsWritten(scriptRan: bool, global: LoadTable, missingWithoutDefault: bool) {
    scriptRan &&
    var hasError := !LoadSectionAsWritten(global) || missingWithoutDefault;
    !hasError
  }

  /** `LoadSection` with its result read as the error flag it is: an error in the
      table or in a subsection's call. */
  predicate LoadSectionHasError(t: LoadTable)
    decreases t
  {
    t.failedWithoutDefault || exists k :: 0 <= k < |t.subtables| && LoadSectionHasError(t.subtables[k])
  }

  /** The corrected verdict of `LoadFromFile`. */
  predicate LoadFromFile(scriptRan: bool, global: LoadTable, missingWithoutDefault: bool) {
    scriptRan && !LoadSectionHasError(global) && !missingWithoutDefault
  }

  /** The number of tables, at any depth, in which an option without a default
      failed. */
  function FailureCount(t: LoadTable): nat
    decreases t, 1
  {
    (if t.failedWithoutDefault then 1 else 0) + SubtableFailures(t.subtables, |t.subtables|)
  }

  function SubtableFailures(ts: seq<LoadTable>, n: nat): nat
    requires n <= |ts|
    decreases ts, 0, n
  {
    if n == 0 then 0 else SubtableFailures(ts, n - 1) + FailureCount(ts[n - 1])
  }

  /** The corrected loader accepts a file exactly when its script ran, no option
      without a default failed at any depth, and none is missing. */
  lemma LoadFromFileIff(scriptRan: bool, global: LoadTable, missingWithoutDefault: bool)
    ensures LoadFromFile(scriptRan, global, missingWithoutDefault) <==>
              scriptRan && FailureCount(global) == 0 && !missingWithoutDefault
  {
    HasErrorIsFailure(global);
  }

  lemma {:induction false} HasErrorIsFailure(t: LoadTable)
    ensures LoadSectionHasError(t) <==> FailureCount(t) > 0
    decreases t, 1
  {
    SubtablesHaveError(t.subtables, |t.subtables|);
  }

  lemma {:induction false} SubtablesHaveError(ts: seq<LoadTable>, n: nat)
    requires n <= |ts|
    ensures (exists k :: 0 <= k < n && LoadSectionHasError(ts[k])) <==> SubtableFailures(ts, n) > 0
    decreases ts, 0, n
  {
    if n > 0 {
      SubtablesHaveError(ts, n - 1);
      HasErrorIsFailure(ts[n - 1]);
      if exists k :: 0 <= k < n && LoadSectionHasError(ts[k]) {
        var k :| 0 <= k < n && LoadSectionHasError(ts[k]);
        assert k == n - 1 || (0 <= k < n - 1 && LoadSectionHasError(ts[k]));
      }
    }
  }

  /** What reading a file can produce: an option without a default that fails to
      load keeps its bit in `missingOptions`, so a failure anywhere makes the file
      miss an option without default. */
  predicate TiedToFailures(global: LoadTable, missingWithoutDefault: bool) {
    FailureCount(global) > 0 ==> missingWithoutDefault
  }

  /** On files of that kind the loader as written is never looser than the
      corrected one: it accepts exactly the files the corrected loader accepts
      and for which `LoadSection` happens to return true. */
  lemma AsWrittenNoLooser(scriptRan: bool, global: LoadTable, missingWithoutDefault: bool)
    requires TiedToFailures(global, missingWithoutDefault)
    ensures LoadFromFileAsWritten(scriptRan, global, missingWithoutDefault) <==>
              LoadFromFile(scriptRan, global, missingWithoutDefault) && LoadSectionAsWritten(global)
  {
    HasErrorIsFailure(global);
  }

  /** Two clean files, with no option failing and none missing, that the corrected
      loader accepts: as written, one holding only global options is refused, and
      so is one whose global table holds a table holding a table. */
  lemma LoadAsWrittenCounterexamples()
    ensures var flat := LoadTable(false, []);
            && TiedToFailures(flat, false) && LoadFromFile(true, flat, false)
            && !LoadFromFileAsWritten(true, flat, false)
    ensures var nested := LoadTable(false, [LoadTable(false, [LoadTable(false, [])])]);
            && TiedToFailures(nested, false) && LoadFromFile(true, nested, false)
            && !LoadFromFileAsWritten(true, nested, false)
  {
    var leaf := LoadTable(false, []);
    var middle := LoadTable(false, [leaf]);
    var nested := LoadTable(false, [middle]);
    HasErrorIsFailure(leaf);
    HasErrorIsFailure(nested);
    assert FailureCount(nested) == 0 by {
      assert SubtableFailures(middle.subtables, 1) == FailureCount(leaf);
      assert SubtableFailures(nested.subtables, 1) == FailureCount(middle);
    }
    assert LoadSectionAsWritten(middle) by {
      assert middle.subtables[0] == leaf;
    }
    assert !LoadSectionAsWritten(nested) by {
      forall k | 0 <= k < |nested.subtables| ensures LoadSectionAsWritten(nested.subtables[k]) {
        assert nested.subtables[k] == middle;
      }
    }
  }

  /** After reading the file, every option still missing must have a default. */
  predicate MissingWithoutDefault(options: seq<ConfigOption>, missing: set<nat>) {
    exists i :: i in missing && i < |options| && !HasDefault(options[i].data)
  }

  // ---------------------------------------------------------------------------
  // The store

  class ConfigFile {
    var optionByName: map<string, nat>
    var options: seq<ConfigOption>
    var globalSection: ConfigSection
    /** The `OnValueUpdate` notifications raised so far, with the option's index. */
    var updates: seq<(nat, ConfigValue)>

    /** Options are numbered by position, each name maps to its option, and the
        section tree holds exactly the registered names, at their segments. */
    ghost predicate Valid()
      reads this
    {
      ValidStore(options, optionByName, globalSection)
    }

    constructor()
      ensures Valid() && optionByName == map[] && options == [] && updates == []
      ensures globalSection == ConfigSection("", [], [])
    {
      optionByName := map[];
      options := [];
      globalSection := ConfigSection("", [], []);
      updates := [];
    }

    /** `RegisterConfig`: the option gets the next index, its name maps to it, and it
        is placed in the section tree under its segments. */
    method RegisterConfig(optionName: string, data: ConfigData)
      requires Valid() && optionName !in optionByName
      modifies this`optionByName, this`options, this`globalSection
      ensures Valid()
      ensures options == old(options) + [ConfigOption(|old(options)|, optionName, data)]
      ensures optionByName == old(optionByName)[optionName := |old(options)|]
      ensures globalSection == Registered(old(globalSection), Segments(optionName), |old(options)|)
    {
      var optionIndex := |options|;
      // The sections `ForEachSection` walks (see its contract).
      var segs := Segments(optionName);
      RegisterValid(options, optionByName, globalSection, optionName, data);
      options := options + [ConfigOption(optionIndex, optionName, data)];
      optionByName := optionByName[optionName := optionIndex];
      globalSection := Registered(globalSection, segs, optionIndex);
    }

    /** `SetIntegerValue`. The option must exist and hold an integer. */
    method SetIntegerValue(optionName: string, value: Int64) returns (accepted: bool)
      requires Valid() && optionName in optionByName && options[optionByName[optionName]].data.IntegerOption?
      modifies this`options, this`updates
      ensures var i := optionByName[optionName];
              var r := SetInteger(old(options[i].data), value);
              && accepted == r.accepted
              && options == old(options)[i := old(options[i]).(data := r.data)]
              && updates == old(updates) + (if r.update.Some? then [(i, r.update.value)] else [])
      ensures Valid()
    {
      var i := optionByName[optionName];
      var r := SetInteger(options[i].data, value);
      Store(i, r);
      accepted := r.accepted;
    }

    /** `SetFloatValue`. */
    method SetFloatValue(optionName: string, value: real) returns (accepted: bool)
      requires Valid() && optionName in optionByName && options[optionByName[optionName]].data.FloatOption?
      modifies this`options, this`updates
      ensures var i := optionByName[optionName];
              var r := SetFloat(old(options[i].data), value);
              && accepted == r.accepted
              && options == old(options)[i := old(options[i]).(data := r.data)]
              && updates == old(updates) + (if r.update.Some? then [(i, r.update.value)] else [])
      ensures Valid()
    {
      var i := optionByName[optionName];
      var r := SetFloat(options[i].data, value);
      Store(i, r);
      accepted := r.accepted;
    }

    /** `SetStringValue`. */
    method SetStringValue(optionName: string, value: string) returns (accepted: bool)
      requires Valid() && optionName in optionByName && options[optionByName[optionName]].data.StringOption?
      modifies this`options, this`updates
      ensures var i := optionByName[optionName];
              var r := SetString(old(options[i].data), value);
              && accepted == r.accepted
              && options == old(options)[i := old(options[i]).(data := r.data)]
              && updates == old(updates) + (if r.update.Some? then [(i, r.update.value)] else [])
      ensures Valid()
    {
      var i := optionByName[optionName];
      var r := SetString(options[i].data, value);
      Store(i, r);
      accepted := r.accepted;
    }

    /** Writes a setter's outcome back: the option's data, and the announcement. */
    method Store(i: nat, r: SetOutcome)
      requires Valid() && i < |options|
      modifies this`options, this`updates
      ensures options == old(options)[i := old(options[i]).(data := r.data)]
      ensures updates == old(updates) + (if r.update.Some? then [(i, r.update.value)] else [])
      ensures Valid()
    {
      if r.update.Some? {
        updates := updates + [(i, r.update.value)];
      }
      options := options[i := options[i].(data := r.data)];
    }

    /** `SaveSectionToFile`, writing to a string. */
    method SaveSectionToFile(section: ConfigSection, indentCount: nat, formatReal: real -> string) returns (text: string)
      requires IndicesBelow(section, |options|)
      ensures text == SectionText(options, section, indentCount, formatReal)
      decreases section, 1
    {
      var global := section.sectionName == "";
      text := SaveOptions(section.options, Tabs(indentCount), global, formatReal);
      var rest := SaveSubsections(section.subsections, indentCount, global, formatReal);
      text := text + rest;
    }

    /** The option loop of `SaveSectionToFile`. */
    method SaveOptions(entries: seq<(string, nat)>, indent: string, global: bool, formatReal: real -> string) returns (text: string)
      requires forall k :: 0 <= k < |entries| ==> entries[k].1 < |options|
      ensures text == OptionLines(options, entries, indent, global, formatReal)
    {
      text := "";
      for k := 0 to |entries|
        invariant text == OptionLines(options, entries[..k], indent, global, formatReal)
      {
        var entry := entries[k];
        assert entries[..k + 1][..k] == entries[..k];
        text := text + OptionLine(indent, entry.0, options[entry.1].data, global, formatReal);
      }
      assert entries[..|entries|] == entries;
    }

    /** The subsection loop of `SaveSectionToFile`. */
    method SaveSubsections(subs: seq<(string, ConfigSection)>, indentCount: nat, global: bool, formatReal: real -> string) returns (text: string)
      requires forall k :: 0 <= k < |subs| ==> IndicesBelow(subs[k].1, |options|)
      ensures text == SubsectionsText(options, subs, |subs|, indentCount, global, formatReal)
      decreases subs, 0
    {
      var indent := Tabs(indentCount);
      text := "";
      for k := 0 to |subs|
        invariant text == SubsectionsText(options, subs, k, indentCount, global, formatReal)
      {
        var inner := SaveSubsection(subs[k], indentCount, global, formatReal);
        text := text + inner;
      }
    }

    method SaveSubsection(sub: (string, ConfigSection), indentCount: nat, global: bool, formatReal: real -> string) returns (text: string)
      requires IndicesBelow(sub.1, |options|)
      ensures text == SubsectionText(options, sub, indentCount, global, formatReal)
      decreases sub, 2
    {
      var indent := Tabs(indentCount);
      var inner := SaveSectionToFile(sub.1, indentCount + 1, formatReal);
      text := indent + sub.0 + " = {\n" + inner + indent + "}" + (if global then "" else ",") + "\n";
    }
  }

  /** The invariant of the store: options are numbered by position, each name maps
      to its option, and the section tree holds exactly the registered names, at
      their segments. */
  ghost predicate ValidStore(options: seq<ConfigOption>, byName: map<string, nat>, tree: ConfigSection) {
    && tree.sectionName == ""
    && Numbered(options, byName)
    && TreeHasNames(byName, tree)
    && TreeOnlyNames(byName, tree)
    && IndicesBelow(tree, |options|)
  }

  /** Options are numbered by position and looked up by their own names. */
  ghost predicate Numbered(options: seq<ConfigOption>, byName: map<string, nat>) {
    && (forall i :: 0 <= i < |options| ==> options[i].index == i && options[i].name in byName && byName[options[i].name] == i)
    && (forall n :: n in byName ==> byName[n] < |options|)
  }

  ghost predicate TreeHasNames(byName: map<string, nat>, tree: ConfigSection) {
    // Triggered on `Segments(n)` alone: `Join(segs) in byName` must not produce new
    // segment lists, or the two quantifiers feed each other.
    forall n {:trigger Segments(n)} :: n in byName ==> OptionAt(tree, Segments(n)) == Some(byName[n])
  }

  ghost predicate TreeOnlyNames(byName: map<string, nat>, tree: ConfigSection) {
    forall segs :: |segs| > 0 && OptionAt(tree, segs).Some? ==> Join(segs) in byName
  }

  lemma RegisterValid(options: seq<ConfigOption>, byName: map<string, nat>, tree: ConfigSection, name: string, data: ConfigData)
    requires Numbered(options, byName) && TreeHasNames(byName, tree) && TreeOnlyNames(byName, tree)
    requires IndicesBelow(tree, |options|) && name !in byName
    ensures var t := Registered(tree, Segments(name), |options|);
            && Numbered(options + [ConfigOption(|options|, name, data)], byName[name := |options|])
            && TreeHasNames(byName[name := |options|], t)
            && TreeOnlyNames(byName[name := |options|], t)
            && IndicesBelow(t, |options| + 1)
  {
    RegisterKeepsTree(tree, name, |options|, byName);
    BelowGrows(tree, |options|, |options| + 1);
    RegisteredBelow(tree, Segments(name), |options|, |options| + 1);
    RegisterNumbered(options, byName, name, data);
  }

  lemma RegisterNumbered(options: seq<ConfigOption>, byName: map<string, nat>, name: string, data: ConfigData)
    requires Numbered(options, byName) && name !in byName
    ensures Numbered(options + [ConfigOption(|options|, name, data)], byName[name := |options|])
  {
  }

  lemma {:induction false} BelowGrows(section: ConfigSection, n: nat, m: nat)
    requires IndicesBelow(section, n) && n <= m
    ensures IndicesBelow(section, m)
    decreases section
  {
    forall k | 0 <= k < |section.subsections|
      ensures IndicesBelow(section.subsections[k].1, m)
    {
      BelowGrows(section.subsections[k].1, n, m);
    }
  }

  /** `RegisterConfig` keeps the tree in step with the name table. */
  lemma RegisterKeepsTree(tree: ConfigSection, name: string, index: nat, byName: map<string, nat>)
    requires name !in byName && TreeHasNames(byName, tree) && TreeOnlyNames(byName, tree)
    ensures TreeHasNames(byName[name := index], Registered(tree, Segments(name), index))
    ensures TreeOnlyNames(byName[name := index], Registered(tree, Segments(name), index))
  {
    var t := Registered(tree, Segments(name), index);
    var m := byName[name := index];
    JoinSegments(name);
    forall n | n in m
      ensures OptionAt(t, Segments(n)) == Some(m[n])
    {
      RegisteredSlots(tree, Segments(name), index, Segments(n));
      if n != name {
        if Segments(n) == Segments(name) {
          SegmentsInjective(n, name);
        }
      }
    }
    forall segs | |segs| > 0 && OptionAt(t, segs).Some?
      ensures Join(segs) in m
    {
      RegisteredSlots(tree, Segments(name), index, segs);
    }
  }
}
