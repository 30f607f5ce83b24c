// Signal values, signal paths and the configuration helpers of src/bus.rs.
module Bus {
  import opened Wrappers

  /** The four single-bit logic levels the analyzers distinguish. */
  datatype ValueType = V0 | V1 | X | Z

  predicate IsBinaryDigit(c: char) { c == '0' || c == '1' }
  predicate IsFourStateDigit(c: char) { c == '0' || c == '1' || c == 'x' || c == 'z' }

  /** Bits of a two-state value, most significant first. */
  type BinaryBits = s: string | forall i :: 0 <= i < |s| ==> IsBinaryDigit(s[i])

  /**
   * Bits of a four-state value. The waveform reader stores a single-bit value that is
   * 0 or 1 as `Binary`, so a single-bit four-state value is always x or z.
   */
  type FourBits = s: string | (forall i :: 0 <= i < |s| ==> IsFourStateDigit(s[i])) && (|s| == 1 ==> s[0] == 'x' || s[0] == 'z')

  /**
   * A sampled signal value as the waveform reader delivers it. Each variant carries the
   * value's bit string (the reader's packed byte encoding is not part of this model).
   */
  datatype SignalValue =
    | Binary(bits: BinaryBits)
    | FourValue(fbits: FourBits)
    | NineValue(nbits: string)
    | Text(text: string)
    | RealValue

  /** The bit string of a value; strings and reals have none. */
  function ToBitString(v: SignalValue): (r: Option<string>)
    ensures r.None? <==> v.Text? || v.RealValue?
  {
    match v
    case Binary(b) => Some(b)
    case FourValue(b) => Some(b)
    case NineValue(b) => Some(b)
    case Text(_) => None
    case RealValue => None
  }

  /** The character a single-bit level is written as. */
  function LevelChar(t: ValueType): char
  {
    match t
    case V0 => '0'
    case V1 => '1'
    case X => 'x'
    case Z => 'z'
  }

  /** `get_value`: the level of a single-bit two- or four-state value, `None` otherwise. */
  function GetValue(v: SignalValue): (r: Option<ValueType>)
    ensures r.Some? <==> (v.Binary? && |v.bits| == 1) || (v.FourValue? && |v.fbits| == 1)
    ensures r.Some? ==> ToBitString(v) == Some([LevelChar(r.value)])
    ensures v.Binary? && r.Some? ==> r.value == V0 || r.value == V1
    ensures v.FourValue? && r.Some? ==> r.value == X || r.value == Z
  {
    match v
    case Binary(b) =>
      if |b| == 1 then
        assert b == [b[0]];
        if b[0] == '0' then Some(V0) else Some(V1)
      else None
    case FourValue(b) =>
      if |b| == 1 then
        assert b == [b[0]];
        if b[0] == 'x' then Some(X) else Some(Z)
      else None
    case NineValue(_) => None
    case Text(_) => None
    case RealValue => None
  }

  /**
   * `is_value_of_type`: whether the value is the given level. A multi-bit four-state value
   * panics, and a nine-state value reaches a `todo!()`.
   */
  function IsValueOfType(v: SignalValue, t: ValueType): (r: Outcome<bool>)
    ensures r.Panics? <==> (v.FourValue? && |v.fbits| != 1) || v.NineValue?
    ensures r == Returns(true) <==> v.Binary? && GetValue(v) == Some(t)
  {
    match v
    case Binary(b) =>
      if |b| == 1 then
        match t
        case V0 => Returns(b[0] == '0')
        case V1 => Returns(b[0] == '1')
        case X => Returns(false)
        case Z => Returns(false)
      else Returns(false)
    case FourValue(b) => if |b| == 1 then Returns(false) else Panics
    case NineValue(_) => Panics
    case Text(_) => Returns(false)
    case RealValue => Returns(false)
  }

  /** `rst_active_value`: the configured reset level 0 or 1; anything else reads as X. */
  function RstActiveValue(rst: nat): (r: ValueType)
    ensures r != Z
    ensures r == V0 <==> rst == 0
    ensures r == V1 <==> rst == 1
  {
    if rst == 0 then V0 else if rst == 1 then V1 else X
  }

  // ---------------------------------------------------------------- signal paths

  /** A hierarchical signal name: the scopes leading to it, then its own name. */
  datatype SignalPath = SignalPath(scope: seq<string>, name: string)

  /** The parts written one after another with a "." between neighbours. */
  function JoinDot(parts: seq<string>): string
  {
    if |parts| == 0 then "" else if |parts| == 1 then parts[0] else parts[0] + "." + JoinDot(parts[1..])
  }

  /** Each part followed by a ".". */
  function DotPrefix(parts: seq<string>): string
  {
    if |parts| == 0 then "" else parts[0] + "." + DotPrefix(parts[1..])
  }

  lemma {:induction false} DotPrefixSnoc(parts: seq<string>, e: string)
    ensures DotPrefix(parts + [e]) == DotPrefix(parts) + e + "."
  {
    if |parts| == 0 {
      assert parts + [e] == [e];
      assert DotPrefix([e]) == e + "." + DotPrefix([]);
    } else {
      assert (parts + [e])[1..] == parts[1..] + [e];
      DotPrefixSnoc(parts[1..], e);
    }
  }

  lemma {:induction false} JoinDotLast(parts: seq<string>, n: string)
    ensures JoinDot(parts + [n]) == DotPrefix(parts) + n
  {
    if |parts| == 0 {
      assert parts + [n] == [n];
    } else {
      assert (parts + [n])[1..] == parts[1..] + [n];
      JoinDotLast(parts[1..], n);
    }
  }

  /** `SignalPath`'s `Display`: every scope followed by ".", then the name. */
  method Display(p: SignalPath) returns (s: string)
    ensures s == JoinDot(p.scope + [p.name])
  {
    s := "";
    var i := 0;
    while i < |p.scope|
      invariant 0 <= i <= |p.scope|
      invariant s == DotPrefix(p.scope[..i])
    {
      DotPrefixSnoc(p.scope[..i], p.scope[i]);
      assert p.scope[..i + 1] == p.scope[..i] + [p.scope[i]];
      s := s + p.scope[i] + ".";
      i := i + 1;
    }
    assert p.scope[..i] == p.scope;
    JoinDotLast(p.scope, p.name);
    s := s + p.name;
  }

  // ---------------------------------------------------------------- YAML

  /** The YAML node kinds of the configuration reader. */
  datatype Yaml =
    | YReal(repr: string)
    | YInteger(i: int)
    | YString(s: string)
    | YBoolean(b: bool)
    | YArray(items: seq<Yaml>)
    | YHash(entries: seq<(Yaml, Yaml)>)
    | YAlias(anchor: nat)
    | YNull
    | YBadValue

  function AsStr(y: Yaml): Option<string>
  {
    if y.YString? then Some(y.s) else None
  }

  function AsVec(y: Yaml): Option<seq<Yaml>>
  {
    if y.YArray? then Some(y.items) else None
  }

  function AsI64(y: Yaml): Option<int>
  {
    if y.YInteger? then Some(y.i) else None
  }

  /** The value stored under `key` among the entries, or the bad value. */
  function Lookup(entries: seq<(Yaml, Yaml)>, key: string): Yaml
  {
    if |entries| == 0 then YBadValue
    else if entries[0].0 == YString(key) then entries[0].1
    else Lookup(entries[1..], key)
  }

  /** Indexing `y["key"]`: a hash lookup; anything that is not a hash yields the bad value. */
  function Index(y: Yaml, key: string): Yaml
  {
    if y.YHash? then Lookup(y.entries, key) else YBadValue
  }

  predicate AllStrings(items: seq<Yaml>)
  {
    forall i :: 0 <= i < |items| ==> items[i].YString?
  }

  function Strings(items: seq<Yaml>): (r: seq<string>)
    requires AllStrings(items)
    ensures |r| == |items|
    ensures forall i :: 0 <= i < |items| ==> r[i] == items[i].s
  {
    if |items| == 0 then [] else [items[0].s] + Strings(items[1..])
  }

  /**
   * `from_yaml_ref_with_prefix`: a YAML string is a signal name in the given scope; a YAML
   * list of strings holds further scopes and, last, the name.
   */
  function FromYamlRefWithPrefix(scope: seq<string>, yaml: Yaml): (r: Result<SignalPath>)
    ensures yaml.YString? ==> r == Ok(SignalPath(scope, yaml.s))
    ensures yaml.YArray? && !AllStrings(yaml.items) ==> r == Err("Signal scope should be a valid string")
    ensures yaml.YArray? && yaml.items == [] ==> r == Err("No signal name")
    ensures yaml.YArray? && AllStrings(yaml.items) && yaml.items != [] ==>
              r.Ok? && r.value.scope + [r.value.name] == scope + Strings(yaml.items)
    ensures !yaml.YString? && !yaml.YArray? ==> r == Err("Invalid YAML")
  {
    match yaml
    case YString(name) => Ok(SignalPath(scope, name))
    case YArray(items) =>
      if !AllStrings(items) then Err("Signal scope should be a valid string")
      else if |items| == 0 then Err("No signal name")
      else
        var names := Strings(items);
        Ok(SignalPath(scope + names[..|names| - 1], names[|names| - 1]))
    case _ => Err("Invalid YAML")
  }

  /** A path built from a YAML list displays as the prefix and the list joined by dots. */
  lemma FromYamlDisplay(scope: seq<string>, items: seq<Yaml>)
    requires AllStrings(items) && items != []
    ensures FromYamlRefWithPrefix(scope, YArray(items)).Ok?
    ensures var p := FromYamlRefWithPrefix(scope, YArray(items)).value;
            JoinDot(p.scope + [p.name]) == JoinDot(scope + Strings(items))
  {
  }

  /** `parse_scope`: the strings of a possibly nested YAML list, in order. */
  function ParseScope(yaml: Yaml): (r: Result<seq<string>>)
    decreases yaml, 1
  {
    match yaml
    case YArray(items) => ParseScopeItems(items)
    case YString(s) => Ok([s])
    case _ => Err("Invalid scope.")
  }

  /** Collects the scopes of a list, stopping at the first element that fails. */
  function ParseScopeItems(items: seq<Yaml>): (r: Result<seq<string>>)
    decreases items, 0
  {
    if |items| == 0 then Ok([])
    else
      match ParseScope(items[0])
      case Err(e) => Err(e)
      case Ok(head) =>
        match ParseScopeItems(items[1..])
        case Err(e) => Err(e)
        case Ok(tail) => Ok(head + tail)
  }

  /** Every leaf of the YAML tree is a string. */
  predicate ScopeLeavesAreStrings(yaml: Yaml)
    decreases yaml, 1
  {
    match yaml
    case YArray(items) => ItemLeavesAreStrings(items)
    case YString(_) => true
    case _ => false
  }

  predicate ItemLeavesAreStrings(items: seq<Yaml>)
    decreases items, 0
  {
    forall i :: 0 <= i < |items| ==> ScopeLeavesAreStrings(items[i])
  }

  /** `parse_scope` succeeds exactly when every leaf is a string, and fails with "Invalid scope." otherwise. */
  lemma {:induction false} ParseScopeSucceeds(yaml: Yaml)
    ensures ParseScope(yaml).Ok? <==> ScopeLeavesAreStrings(yaml)
    ensures ParseScope(yaml).Err? ==> ParseScope(yaml).msg == "Invalid scope."
    decreases yaml, 1
  {
    match yaml
    case YArray(items) => ParseScopeItemsSucceed(items);
    case YString(_) =>
    case _ =>
  }

  lemma {:induction false} ParseScopeItemsSucceed(items: seq<Yaml>)
    ensures ParseScopeItems(items).Ok? <==> ItemLeavesAreStrings(items)
    ensures ParseScopeItems(items).Err? ==> ParseScopeItems(items).msg == "Invalid scope."
    decreases items, 0
  {
    if |items| > 0 {
      ParseScopeSucceeds(items[0]);
      ParseScopeItemsSucceed(items[1..]);
      assert ItemLeavesAreStrings(items) <==>
        ScopeLeavesAreStrings(items[0]) && ItemLeavesAreStrings(items[1..]) by {
        forall i | 0 <= i < |items[1..]| ensures items[1..][i] == items[i + 1] { }
        if ScopeLeavesAreStrings(items[0]) && ItemLeavesAreStrings(items[1..]) {
          forall i | 0 <= i < |items| ensures ScopeLeavesAreStrings(items[i]) {
            if i > 0 { assert items[i] == items[1..][i - 1]; }
          }
        }
      }
    }
  }

  /** Flattening is compositional: the scopes of a concatenated list are the concatenated scopes. */
  lemma {:induction false} ParseScopeAppend(a: seq<Yaml>, b: seq<Yaml>)
    requires ParseScopeItems(a).Ok? && ParseScopeItems(b).Ok?
    ensures ParseScopeItems(a + b) == Ok(ParseScopeItems(a).value + ParseScopeItems(b).value)
  {
    if |a| == 0 {
      assert a + b == b;
      assert [] + ParseScopeItems(b).value == ParseScopeItems(b).value;
    } else {
      assert (a + b)[0] == a[0];
      assert (a + b)[1..] == a[1..] + b;
      ParseScopeAppend(a[1..], b);
      var head := ParseScope(a[0]).value;
      var ta, tb := ParseScopeItems(a[1..]).value, ParseScopeItems(b).value;
      assert head + (ta + tb) == (head + ta) + tb;
    }
  }

  /** Wrapping a list in another list does not change the scopes it yields. */
  lemma NestedScopeFlattens(items: seq<Yaml>)
    ensures ParseScope(YArray([YArray(items)])) == ParseScope(YArray(items))
  {
    var outer := [YArray(items)];
    assert outer[0] == YArray(items) && outer[1..] == [];
    assert ParseScopeItems(outer[1..]) == Ok([]);
    assert ParseScope(YArray(outer)) == ParseScopeItems(outer);
    match ParseScope(YArray(items))
    case Err(_) =>
    case Ok(head) => assert head + [] == head;
  }

  // ---------------------------------------------------------------- intervals

  /** Rust's `i64 as u64`: a negative value wraps modulo 2^64. */
  function AsU64(i: int): (r: int)
    requires -0x8000_0000_0000_0000 <= i < 0x8000_0000_0000_0000
    ensures 0 <= r < 0x1_0000_0000_0000_0000
    ensures r % 0x1_0000_0000_0000_0000 == i % 0x1_0000_0000_0000_0000
  {
    if i < 0 then
      assert (i + 0x1_0000_0000_0000_0000) - i == 0x1_0000_0000_0000_0000;
      i + 0x1_0000_0000_0000_0000
    else i
  }

  predicate IsI64(y: Yaml)
  {
    y.YInteger? ==> -0x8000_0000_0000_0000 <= y.i < 0x8000_0000_0000_0000
  }

  /** One `[start, end]` entry of the `intervals` list. */
  function ParseInterval(y: Yaml): (r: Result<(int, int)>)
    requires y.YArray? ==> forall k :: 0 <= k < |y.items| ==> IsI64(y.items[k])
    ensures r.Ok? <==> y.YArray? && |y.items| == 2 && y.items[0].YInteger? && y.items[1].YInteger?
    ensures r.Ok? ==> r.value.0 % 0x1_0000_0000_0000_0000 == y.items[0].i % 0x1_0000_0000_0000_0000
    ensures r.Ok? ==> r.value.1 % 0x1_0000_0000_0000_0000 == y.items[1].i % 0x1_0000_0000_0000_0000
  {
    match AsVec(y)
    case None => Err("Interval should be a tuple of two numbers")
    case Some(i) =>
      if |i| != 2 then Err("Each interval should be a 2 element list, defining start and end")
      else
        match AsI64(i[0])
        case None => Err("Interval start should be a number")
        case Some(s) =>
          match AsI64(i[1])
          case None => Err("Interval end should be a number")
          case Some(e) =>
            assert IsI64(i[0]) && IsI64(i[1]);
            Ok((AsU64(s), AsU64(e)))
  }

  /** Integers written in the configuration fit in an i64. */
  predicate IntervalsAreI64(items: seq<Yaml>)
  {
    forall j :: 0 <= j < |items| ==> items[j].YArray? ==> forall k :: 0 <= k < |items[j].items| ==> IsI64(items[j].items[k])
  }

  /** Parses every entry, stopping at the first that fails. */
  function ParseIntervalList(items: seq<Yaml>): (r: Result<seq<(int, int)>>)
    requires IntervalsAreI64(items)
    ensures r.Ok? <==> forall j :: 0 <= j < |items| ==> ParseInterval(items[j]).Ok?
    ensures r.Ok? ==> |r.value| == |items| && forall j :: 0 <= j < |items| ==> r.value[j] == ParseInterval(items[j]).value
  {
    if |items| == 0 then Ok([])
    else
      match ParseInterval(items[0])
      case Err(e) => Err(e)
      case Ok(head) =>
        assert IntervalsAreI64(items[1..]) by {
          forall j | 0 <= j < |items[1..]| ensures items[1..][j] == items[j + 1] { }
        }
        match ParseIntervalList(items[1..])
        case Err(e) =>
          assert !ParseInterval(items[1..][0]).Ok? || exists j :: 0 <= j < |items[1..]| && !ParseInterval(items[1..][j]).Ok?;
          Err(e)
        case Ok(tail) => Ok([head] + tail)
  }

  predicate SortedByStart(s: seq<(int, int)>)
  {
    forall i, j :: 0 <= i < j < |s| ==> s[i].0 <= s[j].0
  }

  /** Inserts `x` after every element whose start is not greater than its own (a stable insertion). */
  function InsertByStart(sorted: seq<(int, int)>, x: (int, int)): seq<(int, int)>
  {
    if |sorted| == 0 then [x]
    else if sorted[|sorted| - 1].0 <= x.0 then sorted + [x]
    else InsertByStart(sorted[..|sorted| - 1], x) + [sorted[|sorted| - 1]]
  }

  /** Insertion adds exactly `x`. */
  lemma {:induction false} InsertByStartCount(sorted: seq<(int, int)>, x: (int, int))
    ensures multiset(InsertByStart(sorted, x)) == multiset(sorted) + multiset{x}
  {
    if |sorted| > 0 && sorted[|sorted| - 1].0 > x.0 {
      var init := sorted[..|sorted| - 1];
      assert sorted == init + [sorted[|sorted| - 1]];
      InsertByStartCount(init, x);
    }
  }

  /** Every element of the insertion result is `x` or an element of the list. */
  lemma {:induction false} InsertByStartMembers(sorted: seq<(int, int)>, x: (int, int))
    ensures forall k :: 0 <= k < |InsertByStart(sorted, x)| ==> InsertByStart(sorted, x)[k] == x || InsertByStart(sorted, x)[k] in sorted
  {
    if |sorted| > 0 && sorted[|sorted| - 1].0 > x.0 {
      var init := sorted[..|sorted| - 1];
      InsertByStartMembers(init, x);
      var r := InsertByStart(sorted, x);
      forall k | 0 <= k < |r| ensures r[k] == x || r[k] in sorted {
        if k < |r| - 1 && r[k] != x {
          assert r[k] in init;
        }
      }
    }
  }

  /** Insertion keeps the list sorted by start. */
  lemma {:induction false} InsertByStartSorted(sorted: seq<(int, int)>, x: (int, int))
    requires SortedByStart(sorted)
    ensures SortedByStart(InsertByStart(sorted, x))
  {
    if |sorted| > 0 && sorted[|sorted| - 1].0 > x.0 {
      var init := sorted[..|sorted| - 1];
      var last := sorted[|sorted| - 1];
      InsertByStartSorted(init, x);
      InsertByStartMembers(init, x);
      var front := InsertByStart(init, x);
      forall k | 0 <= k < |front| ensures front[k].0 <= last.0 {
        if front[k] != x {
          var m :| 0 <= m < |init| && init[m] == front[k];
          assert sorted[m] == init[m];
        }
      }
    }
  }

  /** The stable sort by start time that `sort_by` performs, as a value. */
  function SortByStart(s: seq<(int, int)>): (r: seq<(int, int)>)
    ensures SortedByStart(r)
    ensures multiset(r) == multiset(s)
  {
    if |s| == 0 then []
    else
      assert s == s[..|s| - 1] + [s[|s| - 1]];
      InsertByStartSorted(SortByStart(s[..|s| - 1]), s[|s| - 1]);
      InsertByStartCount(SortByStart(s[..|s| - 1]), s[|s| - 1]);
      InsertByStart(SortByStart(s[..|s| - 1]), s[|s| - 1])
  }

  /**
   * `parse_intervals`: when the `intervals` key holds a list, every entry must parse and the
   * result is sorted by start; when it does not hold a list (absent, or any other kind), there
   * are no intervals.
   */
  function ParseIntervals(yaml: Yaml): (r: Result<seq<(int, int)>>)
    requires AsVec(Index(yaml, "intervals")).Some? ==> IntervalsAreI64(AsVec(Index(yaml, "intervals")).value)
    ensures AsVec(Index(yaml, "intervals")).None? ==> r == Ok([])
    ensures r.Ok? ==> SortedByStart(r.value)
    ensures AsVec(Index(yaml, "intervals")).Some? ==>
              var items := AsVec(Index(yaml, "intervals")).value;
              (r.Ok? <==> forall j :: 0 <= j < |items| ==> ParseInterval(items[j]).Ok?) &&
              (r.Ok? ==> multiset(r.value) == multiset(ParseIntervalList(items).value))
  {
    match AsVec(Index(yaml, "intervals"))
    case None => Ok([])
    case Some(items) =>
      match ParseIntervalList(items)
      case Err(e) => Err(e)
      case Ok(list) => Ok(SortByStart(list))
  }

  // ---------------------------------------------------------------- reset type and handshake

  /** `reset_type`: "low" is active-low (0), "high" is active-high (1). */
  function ResetType(yaml: Yaml): (r: Result<nat>)
    ensures AsStr(Index(yaml, "reset_type")).None? ==> r == Err("Bus should have reset type defined")
    ensures r == Ok(0) <==> AsStr(Index(yaml, "reset_type")) == Some("low")
    ensures r == Ok(1) <==> AsStr(Index(yaml, "reset_type")) == Some("high")
    ensures r.Ok? ==> r.value <= 1
  {
    match AsStr(Index(yaml, "reset_type"))
    case None => Err("Bus should have reset type defined")
    case Some(t) =>
      if t == "low" then Ok(0)
      else if t == "high" then Ok(1)
      else Err("Reset type can be \"high\" or \"low\"")
  }

  /** A configured reset type never yields the X level: low resets on 0, high on 1. */
  lemma ResetTypeLevel(yaml: Yaml)
    requires ResetType(yaml).Ok?
    ensures RstActiveValue(ResetType(yaml).value) == (if AsStr(Index(yaml, "reset_type")) == Some("high") then V1 else V0)
  {
  }

  /** The bus kinds a handshake name selects. */
  datatype Handshake = ReadyValid | CreditValid | Ahb | Apb | Custom(interpreter: string)

  function HandshakeName(h: Handshake): string
  {
    match h
    case ReadyValid => "ReadyValid"
    case CreditValid => "CreditValid"
    case Ahb => "AHB"
    case Apb => "APB"
    case Custom(_) => "Custom"
  }

  /**
   * `BusDescriptionBuilder::build`: selects the bus description by the `handshake` key; a
   * custom bus also names its interpreter. (Reading each bus's signal paths is not modelled.)
   */
  function BuildBusDescription(yaml: Yaml): (r: Result<Handshake>)
    ensures AsStr(Index(yaml, "handshake")).None? ==> r == Err("Bus should have handshake defined")
    ensures r.Ok? ==> AsStr(Index(yaml, "handshake")) == Some(HandshakeName(r.value))
    ensures r.Ok? && r.value.Custom? ==> AsStr(Index(yaml, "custom_handshake")) == Some(r.value.interpreter)
    ensures AsStr(Index(yaml, "handshake")) == Some("Custom") && AsStr(Index(yaml, "custom_handshake")).None? ==>
              r == Err("Custom bus has to specify handshake interpreter")
  {
    match AsStr(Index(yaml, "handshake"))
    case None => Err("Bus should have handshake defined")
    case Some(h) =>
      if h == "ReadyValid" then Ok(ReadyValid)
      else if h == "CreditValid" then Ok(CreditValid)
      else if h == "AHB" then Ok(Ahb)
      else if h == "APB" then Ok(Apb)
      else if h == "Custom" then
        match AsStr(Index(yaml, "custom_handshake"))
        case None => Err("Custom bus has to specify handshake interpreter")
        case Some(c) => Ok(Custom(c))
      else Err("Invalid handshake " + h)
  }

  /** Every built-in handshake name selects its own bus kind, and nothing else is accepted. */
  lemma BuildSelectsNamedBus(yaml: Yaml, h: Handshake)
    requires !h.Custom?
    requires AsStr(Index(yaml, "handshake")) == Some(HandshakeName(h))
    ensures BuildBusDescription(yaml) == Ok(h)
  {
  }

  lemma BuildRejectsUnknownNames(yaml: Yaml, name: string)
    requires AsStr(Index(yaml, "handshake")) == Some(name)
    requires name !in {"ReadyValid", "CreditValid", "AHB", "APB", "Custom"}
    ensures BuildBusDescription(yaml) == Err("Invalid handshake " + name)
  {
  }
}
