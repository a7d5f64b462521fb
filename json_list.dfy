/**
 * `JsonUtilityEx`: list support on top of Unity's JsonUtility, which only
 * serialises single objects. `ToJson` writes a list as "[" e1 "," e2 ... "]"
 * with every element serialised in turn; `FromJson` cuts the objects back
 * out of such a text by counting curly braces, and works out the element
 * type from the name of the list type ("...[ItemData]").
 *
 * JsonUtility itself is outside the model: a non-list value carries the
 * text JsonUtility would produce for it.
 */
module JsonList {
  import opened Wrappers
  import opened Text

  /** A value handed to `ToJson`: a list, or an object JsonUtility serialises. */
  datatype Value =
    | ListValue(items: seq<Value>)
    | ObjectValue(json: string)

  /** The items' texts separated by commas. */
  function Join(parts: seq<string>): string
  {
    if parts == [] then ""
    else Join(parts[..|parts| - 1]) + (if |parts| > 1 then "," else "") + parts[|parts| - 1]
  }

  /** The text `ToJson` produces for a value. */
  function Encode(v: Value): string
  {
    match v
    case ObjectValue(json) => json
    case ListValue(items) => "[" + Join(seq(|items|, i requires 0 <= i < |items| => Encode(items[i]))) + "]"
  }

  /** `ToJson(obj)`: recursion on the elements, one loop per list. */
  method ToJson(v: Value) returns (json: string)
    ensures json == Encode(v)
    decreases v
  {
    match v {
      case ObjectValue(j) =>
        json := j;
      case ListValue(items) =>
        ghost var parts := seq(|items|, i requires 0 <= i < |items| => Encode(items[i]));
        // `json` starts as null; null + "[" is "["
        json := "[";
        var i := 0;
        while i < |items|
          invariant 0 <= i <= |items|
          invariant json == "[" + Join(parts[..i])
        {
          if i > 0 {
            json := json + ",";
          }
          var e := ToJson(items[i]);
          assert parts[..i + 1][..i] == parts[..i];
          json := json + e;
          i := i + 1;
        }
        assert parts[..|items|] == parts;
        json := json + "]";
    }
  }

  /** Every list text is bracketed; the empty list is "[]". */
  lemma ListIsBracketed(items: seq<Value>)
    ensures var t := Encode(ListValue(items)); |t| >= 2 && t[0] == '[' && t[|t| - 1] == ']'
    ensures items == [] ==> Encode(ListValue(items)) == "[]"
  {
  }

  // ---------------------------------------------------------------------
  // FromJson's brace-counting splitter

  /** Curly-brace nesting depth at the end of `s`: '{' counts up, '}' down. */
  function Depth(s: string): int
  {
    if s == [] then 0
    else Depth(s[..|s| - 1]) + (if s[|s| - 1] == '{' then 1 else if s[|s| - 1] == '}' then -1 else 0)
  }

  /**
   * The scanner's local variables after some characters: `start` of the
   * object being read, the brace `count`, and the pieces cut out so far.
   */
  datatype Scan = Scan(start: nat, count: int, lines: seq<string>)

  /** One pass of the loop body at index `i`, with `p` the text read so far. */
  function Step(st: Scan, p: string, i: nat): (r: Scan)
    requires i < |p| && st.start <= i
    ensures r.start <= i
  {
    if p[i] == '{' then
      Scan(if st.count == 0 then i else st.start, st.count + 1, st.lines)
    else if p[i] == '}' then
      if st.count - 1 == 0 then Scan(st.start, 0, st.lines + [p[st.start..i + 1]])
      else Scan(st.start, st.count - 1, st.lines)
    else st
  }

  /** The scanner's state after reading all of `p`. */
  function ScanOf(p: string): (r: Scan)
    ensures r.start <= |p| && (|p| > 0 ==> r.start < |p|)
  {
    if p == [] then Scan(0, 0, [])
    else
      var q := p[..|p| - 1];
      var st := ScanOf(q);
      assert forall k :: 0 <= k < |q| ==> q[k] == p[k];
      Step(Scan(st.start, st.count, st.lines), p, |p| - 1)
  }

  /** The pieces `FromJson` would hand to JsonUtility. */
  function Pieces(json: string): seq<string>
  {
    ScanOf(json).lines
  }

  lemma {:induction false} ScanOfPrefix(p: string, i: nat)
    requires i < |p|
    ensures ScanOf(p[..i + 1]) == Step(ScanOf(p[..i]), p[..i + 1], i)
    ensures Step(ScanOf(p[..i]), p[..i + 1], i) == Step(ScanOf(p[..i]), p, i)
  {
    assert p[..i + 1][..i] == p[..i];
    var st := ScanOf(p[..i]);
    if p[i] == '}' && st.count - 1 == 0 {
      assert p[..i + 1][st.start..i + 1] == p[st.start..i + 1];
    }
  }

  /** The scanner's count is the brace depth. */
  lemma {:induction false} CountIsDepth(p: string)
    ensures ScanOf(p).count == Depth(p)
  {
    if p != [] {
      CountIsDepth(p[..|p| - 1]);
    }
  }

  /**
   * The splitting loop of `FromJson`: walks the text once, and whenever a
   * closing brace brings the count back to zero cuts out the object that
   * began at the opening brace that raised it from zero.
   */
  method SplitObjects(json: string) returns (lines: seq<string>)
    ensures lines == Pieces(json)
  {
    lines := [];
    var startIndex := 0;
    var endIndex := 0;
    var count := 0;
    var i := 0;
    while i < |json|
      invariant 0 <= i <= |json|
      invariant ScanOf(json[..i]) == Scan(startIndex, count, lines)
    {
      ScanOfPrefix(json, i);
      if json[i] == '{' {
        if count == 0 {
          startIndex := i;
        }
        count := count + 1;
      } else if json[i] == '}' {
        count := count - 1;
        if count == 0 {
          endIndex := i;
          lines := lines + [json[startIndex..endIndex + 1]];
        }
      }
      i := i + 1;
    }
    assert json[..|json|] == json;
  }

  /** A balanced object text: it opens with '{' and only its last brace closes it. */
  predicate Balanced(o: string)
  {
    |o| >= 2 && o[0] == '{' && Depth(o) == 0 &&
    forall k :: 1 <= k < |o| ==> Depth(o[..k]) >= 1
  }

  /** While an object is open, `start` points at its opening brace and what follows is balanced so far. */
  predicate OpenObject(p: string, st: Scan)
  {
    st.count >= 1 ==>
      st.start < |p| && p[st.start] == '{' && Depth(p[st.start..]) == st.count &&
      forall k :: st.start + 1 <= k <= |p| ==> Depth(p[st.start..k]) >= 1
  }

  lemma {:induction false} DepthAppendChar(s: string, c: char)
    ensures Depth(s + [c]) == Depth(s) + (if c == '{' then 1 else if c == '}' then -1 else 0)
  {
    assert (s + [c])[..|s|] == s;
  }

  lemma {:induction false} ScanKeepsOpenObject(p: string)
    ensures OpenObject(p, ScanOf(p))
    ensures forall j :: 0 <= j < |ScanOf(p).lines| ==> Balanced(ScanOf(p).lines[j])
  {
    if p != [] {
      var q := p[..|p| - 1];
      var c := p[|p| - 1];
      assert p == q + [c];
      ScanKeepsOpenObject(q);
      ScanOfSnoc(q, c);
      OpenStep(q, c, ScanOf(q));
    }
  }

  /** One more character keeps the open object's facts and cuts out only balanced pieces. */
  lemma OpenStep(q: string, c: char, st: Scan)
    requires st.start <= |q| && (st.count >= 1 ==> st.start < |q|)
    requires OpenObject(q, st) && forall j :: 0 <= j < |st.lines| ==> Balanced(st.lines[j])
    ensures OpenObject(q + [c], Step(st, q + [c], |q|))
    ensures forall j :: 0 <= j < |Step(st, q + [c], |q|).lines| ==> Balanced(Step(st, q + [c], |q|).lines[j])
  {
    if st.count >= 1 {
      OpenStepInside(q, c, st);
    } else if c == '{' {
      var p := q + [c];
      assert p[|q|..] == [] + ['{'];
      DepthAppendChar([], '{');
    }
  }

  lemma OpenStepInside(q: string, c: char, st: Scan)
    requires st.count >= 1 && st.start < |q|
    requires OpenObject(q, st) && forall j :: 0 <= j < |st.lines| ==> Balanced(st.lines[j])
    ensures OpenObject(q + [c], Step(st, q + [c], |q|))
    ensures forall j :: 0 <= j < |Step(st, q + [c], |q|).lines| ==> Balanced(Step(st, q + [c], |q|).lines[j])
  {
    var p := q + [c];
    ExtendOpen(q, c, st);
    assert p[st.start..|p|] == p[st.start..];
    if c == '}' && st.count == 1 {
      assert Balanced(p[st.start..]);
    }
  }

  /** The object open in `q` stays open, one character deeper or shallower, in `q + [c]`. */
  lemma ExtendOpen(q: string, c: char, st: Scan)
    requires st.count >= 1 && OpenObject(q, st)
    ensures var p := q + [c];
      p[st.start] == '{' && Depth(p[st.start..]) == st.count + (if c == '{' then 1 else if c == '}' then -1 else 0) &&
      forall k :: st.start + 1 <= k <= |q| ==> Depth(p[st.start..k]) >= 1
    ensures forall k :: 1 <= k < |q| + 1 - st.start ==> Depth((q + [c])[st.start..][..k]) >= 1
  {
    var p := q + [c];
    assert p[st.start..] == q[st.start..] + [c];
    DepthAppendChar(q[st.start..], c);
    forall k | st.start + 1 <= k <= |q| ensures p[st.start..k] == q[st.start..k] { }
    forall k | 1 <= k < |q| + 1 - st.start ensures p[st.start..][..k] == q[st.start..st.start + k] { }
  }

  /** Every piece `FromJson` cuts out is a balanced object text. */
  lemma PiecesAreBalanced(json: string, j: nat)
    requires j < |Pieces(json)|
    ensures Balanced(Pieces(json)[j])
    ensures Pieces(json)[j][0] == '{' && Pieces(json)[j][|Pieces(json)[j]| - 1] == '}'
  {
    ScanKeepsOpenObject(json);
    var o := Pieces(json)[j];
    assert o == o[..|o| - 1] + [o[|o| - 1]];
    DepthAppendChar(o[..|o| - 1], o[|o| - 1]);
  }

  lemma {:induction false} ScanOfSnoc(p: string, c: char)
    ensures ScanOf(p + [c]) == Step(ScanOf(p), p + [c], |p|)
  {
    var pc := p + [c];
    assert pc[..|p|] == p;
  }

  /** Pieces are cut out in reading order: reading on only appends to them. */
  lemma {:induction false} PiecesGrow(p: string, q: string)
    ensures Pieces(p) <= Pieces(p + q)
    decreases |q|
  {
    if q == [] {
      assert p + q == p;
    } else {
      var q' := q[..|q| - 1];
      assert p + q == (p + q') + [q[|q| - 1]];
      PiecesGrow(p, q');
      ScanOfSnoc(p + q', q[|q| - 1]);
    }
  }

  ghost predicate Substring(p: string, t: string)
  {
    exists i :: OccursAt(p, t, i)
  }

  /** Every piece is a substring of the text it was cut from. */
  lemma {:induction false} PiecesOccur(p: string)
    ensures forall j :: 0 <= j < |Pieces(p)| ==> Substring(p, Pieces(p)[j])
  {
    if p != [] {
      var q := p[..|p| - 1];
      var c := p[|p| - 1];
      assert p == q + [c];
      PiecesOccur(q);
      ScanOfSnoc(q, c);
      forall j | 0 <= j < |Pieces(p)| ensures Substring(p, Pieces(p)[j]) {
        var st := ScanOf(q);
        if j < |Pieces(q)| {
          var i :| OccursAt(q, Pieces(q)[j], i);
          assert p[i..i + |Pieces(q)[j]|] == q[i..i + |Pieces(q)[j]|];
          assert OccursAt(p, Pieces(p)[j], i);
        } else {
          assert ScanOf(p) == Step(st, p, |q|);
          assert c == '}' && st.count == 1;
          assert Pieces(p)[j] == p[st.start..|p|];
          assert OccursAt(p, Pieces(p)[j], st.start);
        }
      }
    } else {
      assert Pieces(p) == [];
    }
  }

  /** Scanning a text that enters with count zero: its lines are appended after the earlier ones. */
  lemma {:induction false} ScanAppend(p: string, q: string)
    requires ScanOf(p).count == 0
    ensures ScanOf(p + q).lines == ScanOf(p).lines + ScanOf(q).lines
    ensures ScanOf(p + q).count == ScanOf(q).count
    ensures ScanOf(q).count >= 1 ==> ScanOf(p + q).start == |p| + ScanOf(q).start
  {
    if q == [] {
      assert p + q == p;
    } else {
      var q' := q[..|q| - 1];
      var c := q[|q| - 1];
      var x, y := (p + q') + [c], q' + [c];
      assert y == q && x == p + q;
      ScanAppend(p, q');
      ScanOfSnoc(p + q', c);
      ScanOfSnoc(q', c);
      assert x[|p|..] == y;
      StepAppend(ScanOf(p + q'), ScanOf(q'), ScanOf(p).lines, |p|, x, y);
    }
  }

  /** One step of the scanner over `x` and over its suffix `y` (from `n` on) keeps their states in step. */
  lemma StepAppend(a: Scan, b: Scan, init: seq<string>, n: nat, x: string, y: string)
    requires |y| >= 1 && |x| == n + |y| && x[n..] == y
    requires a.start < |x| && b.start < |y|
    requires a.lines == init + b.lines && a.count == b.count && (b.count >= 1 ==> a.start == n + b.start)
    ensures Step(a, x, |x| - 1).lines == init + Step(b, y, |y| - 1).lines
    ensures Step(a, x, |x| - 1).count == Step(b, y, |y| - 1).count
    ensures Step(b, y, |y| - 1).count >= 1 ==> Step(a, x, |x| - 1).start == n + Step(b, y, |y| - 1).start
  {
    assert x[|x| - 1] == y[|y| - 1];
    if y[|y| - 1] == '}' && b.count == 1 {
      assert x[a.start..|x|] == x[n..][b.start..|y|];
    }
  }

  lemma {:induction false} BalancedScan(o: string)
    requires Balanced(o)
    ensures ScanOf(o).lines == [o] && ScanOf(o).count == 0
  {
    var k := 1;
    ScanOfPrefix(o, 0);
    assert o[..0] == [];
    while k < |o|
      invariant 1 <= k <= |o|
      invariant ScanOf(o[..k]) == Scan(0, Depth(o[..k]), if k == |o| then [o] else [])
    {
      ScanOfPrefix(o, k);
      assert o[..k + 1] == o[..k] + [o[k]];
      DepthAppendChar(o[..k], o[k]);
      if k + 1 < |o| {
        assert Depth(o[..k + 1]) >= 1;
      } else {
        assert o[..k + 1] == o;
      }
      k := k + 1;
    }
    assert o[..|o|] == o;
  }

  lemma {:induction false} NoBraceScan(c: char)
    requires c != '{' && c != '}'
    ensures ScanOf([c]) == Scan(0, 0, [])
  {
    assert [c][..0] == [];
  }

  /** The scanner, run on `o` alone, cuts out exactly `o`. */
  predicate ScansAsOne(o: string)
  {
    ScanOf(o).lines == [o] && ScanOf(o).count == 0
  }

  lemma {:induction false} ScanJoin(objs: seq<string>)
    requires forall j :: 0 <= j < |objs| ==> ScansAsOne(objs[j])
    ensures ScanOf("[" + Join(objs)).lines == objs
    ensures ScanOf("[" + Join(objs)).count == 0
  {
    if objs == [] {
      NoBraceScan('[');
      assert "[" + Join(objs) == "[";
    } else {
      var init := objs[..|objs| - 1];
      assert objs == init + [objs[|objs| - 1]];
      ScanJoin(init);
      ScanJoinStep(init, objs[|objs| - 1]);
    }
  }

  /** One more object after the ones already joined. */
  lemma ScanJoinStep(init: seq<string>, last: string)
    requires ScanOf("[" + Join(init)).lines == init && ScanOf("[" + Join(init)).count == 0
    requires ScansAsOne(last)
    ensures ScanOf("[" + Join(init + [last])).lines == init + [last]
    ensures ScanOf("[" + Join(init + [last])).count == 0
  {
    var objs := init + [last];
    var p := "[" + Join(init);
    assert objs[..|objs| - 1] == init;
    if init != [] {
      assert Join(objs) == Join(init) + "," + last;
      NoBraceScan(',');
      ScanAppend(p, ",");
      assert "[" + Join(objs) == (p + ",") + last;
      ScanAppend(p + ",", last);
    } else {
      assert Join(objs) == last;
      assert "[" + Join(objs) == p + last;
      ScanAppend(p, last);
    }
  }

  /**
   * Round trip: the pieces `FromJson` cuts out of the text `ToJson` wrote
   * for a list of objects are the objects' own texts, provided each of
   * those is balanced.
   */
  lemma {:induction false} SplitAfterEncode(objs: seq<string>)
    requires forall j :: 0 <= j < |objs| ==> Balanced(objs[j])
    ensures Pieces(Encode(ListValue(seq(|objs|, i requires 0 <= i < |objs| => ObjectValue(objs[i]))))) == objs
  {
    var items := seq(|objs|, i requires 0 <= i < |objs| => ObjectValue(objs[i]));
    assert seq(|items|, i requires 0 <= i < |items| => Encode(items[i])) == objs;
    forall j | 0 <= j < |objs| ensures ScansAsOne(objs[j]) {
      BalancedScan(objs[j]);
    }
    ScanJoin(objs);
    NoBraceScan(']');
    ScanAppend("[" + Join(objs), "]");
  }

  // ---------------------------------------------------------------------
  // element type taken from the list type's name

  /**
   * `typeName.Substring(LastIndexOf('[') + 1, LastIndexOf(']') - LastIndexOf('[') - 1)`,
   * None where Substring would throw (a negative length).
   */
  function ElementTypeName(typeName: string): (r: Option<string>)
    ensures r.Some? <==> LastIndexOf(typeName, '[') < LastIndexOf(typeName, ']')
    ensures r.Some? ==> OccursAt(typeName, r.value + "]", LastIndexOf(typeName, '[') + 1)
    ensures r.Some? ==> '[' !in r.value
  {
    var open := LastIndexOf(typeName, '[');
    var close := LastIndexOf(typeName, ']');
    if close - open - 1 < 0 then None
    else
      BetweenLastBrackets(typeName, open, close);
      Some(typeName[open + 1..close])
  }

  lemma BetweenLastBrackets(typeName: string, open: int, close: int)
    requires open == LastIndexOf(typeName, '[') && close == LastIndexOf(typeName, ']') && open < close
    ensures OccursAt(typeName, typeName[open + 1..close] + "]", open + 1)
    ensures '[' !in typeName[open + 1..close]
  {
    var n := typeName[open + 1..close];
    assert typeName[open + 1..close + 1] == n + "]" by {
      assert typeName[open + 1..close + 1] == n + typeName[close..close + 1];
    }
    forall k | 0 <= k < |n| ensures n[k] != '[' {
      assert n[k] == typeName[open + 1 + k];
    }
  }

  lemma {:induction false} LastIndexOfAppend(p: string, s: string, c: char)
    requires c in s
    ensures LastIndexOf(p + s, c) == |p| + LastIndexOf(s, c)
  {
    var k := LastIndexOf(s, c);
    var r := LastIndexOf(p + s, c);
    assert (p + s)[|p| + k] == c;
    assert r >= |p| + k;
  }

  /** The element type of `Prefix[Name]` is `Name`. */
  lemma {:induction false} ElementTypeNameOf(prefix: string, name: string)
    requires '[' !in name && ']' !in name
    ensures ElementTypeName(prefix + ['['] + name + [']']) == Some(name)
  {
    var s := ['['] + name + [']'];
    var t := prefix + s;
    assert prefix + ['['] + name + [']'] == t;
    assert LastIndexOf(s, ']') == |s| - 1;
    assert LastIndexOf(s, '[') == 0 by {
      forall k | 0 < k < |s| ensures s[k] != '[' {
        if k <= |name| { assert s[k] == name[k - 1]; }
      }
    }
    LastIndexOfAppend(prefix, s, '[');
    LastIndexOfAppend(prefix, s, ']');
    var open, close := LastIndexOf(t, '['), LastIndexOf(t, ']');
    assert open == |prefix| && close == |prefix| + |name| + 1;
    assert t[open + 1..close] == name;
    assert ElementTypeName(t) == Some(t[open + 1..close]);
  }

  /** What `FromJson` decides before JsonUtility takes over. */
  datatype Parse =
    | NotAList                                    // default(T)
    | BadTypeName                                 // Substring throws
    | Items(itemType: string, lines: seq<string>) // one JsonUtility.FromJson per line

  function FromJson(json: string, listTypeName: string): (r: Parse)
    ensures r.NotAList? <==> !(|json| >= 1 && json[0] == '[')
    ensures r.Items? ==> r.lines == Pieces(json) && ElementTypeName(listTypeName) == Some(r.itemType)
    ensures r.BadTypeName? ==> ElementTypeName(listTypeName).None?
  {
    if !(|json| >= 1 && json[0] == '[') then NotAList
    else match ElementTypeName(listTypeName)
      case None => BadTypeName
      case Some(t) => Items(t, Pieces(json))
  }

  /**
   * `FromJson<List<T>>(ToJson(list))` hands each item's text back to
   * JsonUtility, with `T` read from the list type's name `...[T]`.
   */
  lemma FromJsonAfterToJson(objs: seq<string>, prefix: string, name: string)
    requires forall j :: 0 <= j < |objs| ==> Balanced(objs[j])
    requires '[' !in name && ']' !in name
    ensures FromJson(Encode(ListValue(seq(|objs|, i requires 0 <= i < |objs| => ObjectValue(objs[i])))),
                     prefix + ['['] + name + [']'])
            == Items(name, objs)
  {
    SplitAfterEncode(objs);
    ElementTypeNameOf(prefix, name);
    ListIsBracketed(seq(|objs|, i requires 0 <= i < |objs| => ObjectValue(objs[i])));
  }
}
