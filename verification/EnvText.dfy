/**
 The .env reader and writer of scripts/resolve-dev-infra.py.  Strings are Unicode; white space and line
 breaks are Python's (str.strip and str.splitlines).
 */
module EnvText {
  import opened Base

  predicate IsBreak(c: char) {
    '\n' <= c <= '\r' || '\U{1C}' <= c <= '\U{1E}' || c == '\U{85}' || c == '\U{2028}' || c == '\U{2029}'
  }

  predicate IsSpace(c: char) {
    IsBreak(c) || c == ' ' || c == '\t' || c == '\U{1F}' || c == '\U{A0}' || c == '\U{1680}'
    || '\U{2000}' <= c <= '\U{200A}' || c == '\U{202F}' || c == '\U{205F}' || c == '\U{3000}'
  }

  function LStrip(s: string, drop: char -> bool): (t: string)
    ensures t == "" || !drop(t[0])
    ensures forall c | c in t :: c in s
  {
    if s != "" && drop(s[0]) then LStrip(s[1..], drop) else s
  }

  function RStrip(s: string, drop: char -> bool): (t: string)
    ensures t == "" || !drop(t[|t| - 1])
    ensures t <= s
  {
    if s != "" && drop(s[|s| - 1]) then RStrip(s[..|s| - 1], drop) else s
  }

  function StripBy(s: string, drop: char -> bool): string {
    RStrip(LStrip(s, drop), drop)
  }

  const SPACE: char -> bool := (c: char) => IsSpace(c)
  const DOUBLE_QUOTE: char -> bool := (c: char) => c == '\"'
  const SINGLE_QUOTE: char -> bool := (c: char) => c == '\''

  function Strip(s: string): string { StripBy(s, SPACE) }

  function Unquote(s: string): string { StripBy(StripBy(s, DOUBLE_QUOTE), SINGLE_QUOTE) }

  function IndexOfEq(s: string): (k: nat)
    ensures k <= |s|
    ensures k < |s| ==> s[k] == '='
    ensures forall i | 0 <= i < k :: s[i] != '='
  {
    if s == "" || s[0] == '=' then 0 else 1 + IndexOfEq(s[1..])
  }

  /** The key and value a line assigns; None for blank lines, comments and lines without '='. */
  function Assigned(line: string): Option<(string, string)> {
    var s := Strip(line);
    var k := IndexOfEq(s);
    if s == "" || s[0] == '#' || k == |s| then None
    else Some((Strip(s[..k]), Unquote(Strip(s[k + 1..]))))
  }

  ghost predicate All(s: string, drop: char -> bool) { forall c | c in s :: drop(c) }

  lemma {:induction false} LStripLaw(s: string, drop: char -> bool) returns (a: string)
    ensures s == a + LStrip(s, drop) && All(a, drop)
  {
    a := "";
    if s != "" && drop(s[0]) {
      a := LStripLaw(s[1..], drop);
      a := [s[0]] + a;
      assert s == [s[0]] + s[1..];
    }
  }

  lemma {:induction false} RStripLaw(s: string, drop: char -> bool) returns (b: string)
    ensures s == RStrip(s, drop) + b && All(b, drop)
  {
    b := "";
    if s != "" && drop(s[|s| - 1]) {
      b := RStripLaw(s[..|s| - 1], drop);
      b := b + [s[|s| - 1]];
      assert s == s[..|s| - 1] + [s[|s| - 1]];
    }
  }

  /** Stripping takes exactly the characters to drop off both ends. */
  lemma StripLaw(s: string, drop: char -> bool) returns (a: string, b: string)
    ensures s == a + StripBy(s, drop) + b && All(a, drop) && All(b, drop)
    ensures var t := StripBy(s, drop); t == "" || (!drop(t[0]) && !drop(t[|t| - 1]))
  {
    a := LStripLaw(s, drop);
    b := RStripLaw(LStrip(s, drop), drop);
    assert StripBy(s, drop) <= LStrip(s, drop);
  }

  /** What has nothing to drop at its ends is left alone, and what was put around it is dropped. */
  lemma {:induction false} StripAround(a: string, v: string, b: string, drop: char -> bool)
    requires All(a, drop) && All(b, drop) && (v == "" || (!drop(v[0]) && !drop(v[|v| - 1])))
    ensures StripBy(a + v + b, drop) == v
    decreases |a| + |b|
  {
    if a != "" {
      assert a[0] in a;
      assert (a + v + b)[1..] == a[1..] + v + b;
      StripAround(a[1..], v, b, drop);
    } else if b != "" {
      assert b[|b| - 1] in b;
      var s := v + b;
      assert a + v + b == s && s[..|s| - 1] == a + v + b[..|b| - 1];
      StripAround(a, v, b[..|b| - 1], drop);
      if v == "" {
        AllDropped(s, drop);
        AllDropped(b[..|b| - 1], drop);
      } else {
        assert s[0] == v[0];
        assert LStrip(s, drop) == s;
        assert LStrip(s[..|s| - 1], drop) == s[..|s| - 1];
      }
    } else {
      assert a + v + b == v;
    }
  }

  lemma {:induction false} AllDropped(s: string, drop: char -> bool)
    requires All(s, drop)
    ensures LStrip(s, drop) == "" && StripBy(s, drop) == ""
  {
    if s != "" {
      assert s[0] in s;
      AllDropped(s[1..], drop);
    }
  }

  /** Double quotes around a value go first, then single quotes inside them; double quotes inside single ones stay. */
  lemma UnquoteLaw(v: string)
    requires v == "" || (v[0] != '\"' && v[0] != '\'' && v[|v| - 1] != '\"' && v[|v| - 1] != '\'')
    ensures Unquote(v) == Unquote("\"" + v + "\"") == Unquote("'" + v + "'") == Unquote("\"'" + v + "'\"") == v
    ensures v != "" ==> Unquote("'\"" + v + "\"'") == "\"" + v + "\""
  {
    hide StripBy;
    var dq, sq := "\"", "'";
    StripAround("", v, "", DOUBLE_QUOTE);
    StripAround("", v, "", SINGLE_QUOTE);
    assert "" + v + "" == v;
    StripAround(dq, v, dq, DOUBLE_QUOTE);
    StripAround("", sq + v + sq, "", DOUBLE_QUOTE);
    assert "" + (sq + v + sq) + "" == sq + v + sq;
    StripAround(sq, v, sq, SINGLE_QUOTE);
    StripAround(dq, sq + v + sq, dq, DOUBLE_QUOTE);
    assert dq + (sq + v + sq) + dq == "\"'" + v + "'\"";
    var inner := dq + v + dq;
    StripAround("", sq + inner + sq, "", DOUBLE_QUOTE);
    assert "" + (sq + inner + sq) + "" == sq + inner + sq == "'\"" + v + "\"'";
    StripAround(sq, inner, sq, SINGLE_QUOTE);
  }

  /** The line, stripped, is not a comment and reads key, '=', raw value, with no '=' before that one. */
  ghost predicate Assigns(line: string, before: string, raw: string) {
    var s := Strip(line);
    s == before + "=" + raw && '=' !in before && s[0] != '#'
  }

  /** A line assigns exactly what stands around its first '=', the key stripped, the value stripped and unquoted;
      blank lines, comments and lines without '=' assign nothing. */
  lemma AssignedLaw(line: string, before: string, raw: string)
    ensures Assigns(line, before, raw) ==> Assigned(line) == Some((Strip(before), Unquote(Strip(raw))))
    ensures Assigned(line) == None <==> Strip(line) == "" || Strip(line)[0] == '#' || '=' !in Strip(line)
  {
    hide Strip, Unquote;
    var s := Strip(line);
    var k := IndexOfEq(s);
    if Assigns(line, before, raw) {
      assert s[|before|] == '=';
      assert forall i | 0 <= i < |before| :: s[i] == before[i] && before[i] in before;
      assert k == |before| && s[..k] == before && s[k + 1..] == raw;
    }
    if k < |s| {
      assert s[k] in s;
    }
  }

  function ParseLines(lines: seq<string>): map<string, string> {
    if lines == [] then map[]
    else
      var front := ParseLines(lines[..|lines| - 1]);
      match Assigned(lines[|lines| - 1])
      case None => front
      case Some(kv) => front[kv.0 := kv.1]
  }

  // ----- rendering -----

  /** A Python dict: its keys in insertion order and its values. */
  datatype Dict = Dict(keys: seq<string>, vals: map<string, string>)

  ghost predicate IsDict(d: Dict) {
    && (forall k :: k in d.keys <==> k in d.vals)
    && (forall i, j | 0 <= i < j < |d.keys| :: d.keys[i] != d.keys[j])
  }

  function Line(k: string, v: string): string { k + "=" + v }

  function RenderLine(line: string, vals: map<string, string>): string {
    match Assigned(line)
    case None => line
    case Some(kv) => if kv.0 in vals then Line(kv.0, vals[kv.0]) else line
  }

  function RenderLines(lines: seq<string>, vals: map<string, string>): seq<string> {
    if lines == [] then []
    else RenderLines(lines[..|lines| - 1], vals) + [RenderLine(lines[|lines| - 1], vals)]
  }

  /** Lines for the keys that did not occur. */
  function Appended(keys: seq<string>, vals: map<string, string>, seen: set<string>): seq<string> {
    if keys == [] then []
    else
      var front := Appended(keys[..|keys| - 1], vals, seen);
      var k := keys[|keys| - 1];
      if k in seen || k !in vals then front else front + [Line(k, vals[k])]
  }

  /** The keys of `vals` that some line assigns. */
  function SeenKeys(lines: seq<string>, vals: map<string, string>): set<string> {
    set k | k in ParseLines(lines) && k in vals
  }

  function Render(lines: seq<string>, d: Dict): seq<string> {
    RenderLines(lines, d.vals) + Appended(d.keys, d.vals, SeenKeys(lines, d.vals))
  }

  /** What becomes of each line: one that assigns an updated key is replaced by the key, '=' and its new value; every
      other line, comments and blank lines included, stays as it is. */
  lemma {:induction false} RenderLaw(lines: seq<string>, vals: map<string, string>, i: nat)
    requires i < |lines|
    ensures |RenderLines(lines, vals)| == |lines|
    ensures var line, out := lines[i], RenderLines(lines, vals)[i];
            out == if Assigned(line).Some? && Assigned(line).value.0 in vals
                   then Assigned(line).value.0 + "=" + vals[Assigned(line).value.0] else line
  {
    hide Assigned;
    var n := |lines| - 1;
    if n > 0 {
      RenderLaw(lines[..n], vals, if i < n then i else 0);
    } else {
      assert RenderLines(lines[..0], vals) == [];
    }
  }

  /** The lines after those: the updates no line assigned, in order, each once. */
  lemma {:induction false} AppendedLaw(keys: seq<string>, vals: map<string, string>, seen: set<string>)
    requires forall k | k in keys :: k in vals
    ensures var out, missing := Appended(keys, vals, seen), Missing(keys, seen);
            |out| == |missing| && forall i | 0 <= i < |missing| :: missing[i] in vals && out[i] == missing[i] + "=" + vals[missing[i]]
  {
    if keys != [] {
      assert keys[|keys| - 1] in keys;
      AppendedLaw(keys[..|keys| - 1], vals, seen);
    }
  }

  function Missing(keys: seq<string>, seen: set<string>): seq<string> {
    if keys == [] then []
    else Missing(keys[..|keys| - 1], seen) + (if keys[|keys| - 1] in seen then [] else [keys[|keys| - 1]])
  }

  // ----- the loops as written -----

  method ParseEnv(text: string) returns (out: map<string, string>)
    ensures out == ParseLines(SplitLines(text))
  {
    hide Strip, Unquote, IndexOfEq, SplitLines;
    var lines := SplitLines(text);
    out := map[];
    for i := 0 to |lines|
      invariant out == ParseLines(lines[..i])
    {
      assert lines[..i + 1][..i] == lines[..i];
      var s := Strip(lines[i]);
      var k := IndexOfEq(s);
      if s == "" || s[0] == '#' || k == |s| {
        continue;
      }
      out := out[Strip(s[..k]) := Unquote(Strip(s[k + 1..]))];
    }
    assert lines[..|lines|] == lines;
  }

  lemma NothingRendered(vals: map<string, string>)
    ensures RenderLines([], vals) == [] && SeenKeys([], vals) == {}
  {
  }

  /** One more line of the text. */
  lemma RenderSnoc(lines: seq<string>, i: nat, vals: map<string, string>)
    requires i < |lines|
    ensures RenderLines(lines[..i + 1], vals) == RenderLines(lines[..i], vals) + [RenderLine(lines[i], vals)]
    ensures var kv := Assigned(lines[i]);
            SeenKeys(lines[..i + 1], vals)
            == SeenKeys(lines[..i], vals) + (if kv.Some? && kv.value.0 in vals then {kv.value.0} else {})
  {
    hide Assigned, RenderLine;
    assert lines[..i + 1][..i] == lines[..i];
  }

  /** One more key of the updates. */
  lemma AppendedSnoc(d: Dict, i: nat, seen: set<string>)
    requires IsDict(d) && i < |d.keys|
    ensures var k := d.keys[i];
            k in d.vals && Appended(d.keys[..i + 1], d.vals, seen)
                           == Appended(d.keys[..i], d.vals, seen) + (if k in seen then [] else [Line(k, d.vals[k])])
  {
    hide Line;
    assert d.keys[i] in d.keys;
    assert d.keys[..i + 1][..i] == d.keys[..i];
  }

  method RenderEnv(lines: seq<string>, updates: Dict) returns (out: seq<string>)
    requires IsDict(updates)
    ensures out == Render(lines, updates)
  {
    hide Strip, Unquote, IndexOfEq, Line, IsDict, SeenKeys, RenderLines;
    var seen: set<string> := {};
    out := [];
    NothingRendered(updates.vals);
    for i := 0 to |lines|
      invariant out == RenderLines(lines[..i], updates.vals)
      invariant seen == SeenKeys(lines[..i], updates.vals)
    {
      RenderSnoc(lines, i, updates.vals);
      var s := Strip(lines[i]);
      var k := IndexOfEq(s);
      if s == "" || s[0] == '#' || k == |s| {
        out := out + [lines[i]];
        continue;
      }
      var key := Strip(s[..k]);
      if key in updates.vals {
        out := out + [Line(key, updates.vals[key])];
        seen := seen + {key};
      } else {
        out := out + [lines[i]];
      }
    }
    assert lines[..|lines|] == lines;
    ghost var rendered := out;
    for i := 0 to |updates.keys|
      invariant out == rendered + Appended(updates.keys[..i], updates.vals, seen)
    {
      AppendedSnoc(updates, i, seen);
      var key := updates.keys[i];
      if key !in seen {
        out := out + [Line(key, updates.vals[key])];
      }
    }
    assert updates.keys[..|updates.keys|] == updates.keys;
  }

  // ----- parsing is compositional -----

  lemma ParseSnoc(lines: seq<string>, line: string)
    ensures ParseLines(lines + [line]) == match Assigned(line) {
              case None => ParseLines(lines)
              case Some(kv) => ParseLines(lines)[kv.0 := kv.1]
            }
  {
    assert (lines + [line])[..|lines|] == lines;
  }

  lemma {:induction false} ParseConcat(a: seq<string>, b: seq<string>)
    ensures ParseLines(a + b) == ParseLines(a) + ParseLines(b)
  {
    hide Assigned;
    if b == [] {
      assert a + b == a;
    } else {
      var n := |b| - 1;
      ParseConcat(a, b[..n]);
      assert a + b == a + b[..n] + [b[n]] && b == b[..n] + [b[n]];
      ParseSnoc(a + b[..n], b[n]);
      ParseSnoc(b[..n], b[n]);
    }
  }

  /** An update that reads back as itself. */
  ghost predicate Faithful(k: string, v: string) {
    Assigned(Line(k, v)) == Some((k, v))
  }

  ghost predicate AllFaithful(vals: map<string, string>) {
    forall k | k in vals :: Faithful(k, vals[k])
  }

  /** Settings with the updated keys' values replaced and nothing added. */
  function Replaced(settings: map<string, string>, vals: map<string, string>): map<string, string> {
    map k | k in settings :: if k in vals then vals[k] else settings[k]
  }

  lemma ReplacedUpdate(settings: map<string, string>, vals: map<string, string>, k: string, v: string)
    ensures Replaced(settings[k := v], vals) == Replaced(settings, vals)[k := if k in vals then vals[k] else v]
  {
  }

  /** Rewriting the lines replaces the values of updated keys and touches nothing else. */
  lemma {:induction false} ParseRendered(lines: seq<string>, vals: map<string, string>)
    requires AllFaithful(vals)
    ensures ParseLines(RenderLines(lines, vals)) == Replaced(ParseLines(lines), vals)
  {
    hide Assigned, Line, Replaced;
    if lines == [] {
      NothingReplaced(vals);
    } else {
      var n := |lines| - 1;
      ParseRendered(lines[..n], vals);
      ParseSnoc(RenderLines(lines[..n], vals), RenderLine(lines[n], vals));
      if Assigned(lines[n]).Some? {
        var (k, v) := Assigned(lines[n]).value;
        ReplacedUpdate(ParseLines(lines[..n]), vals, k, v);
        if k in vals {
          assert Faithful(k, vals[k]);
        }
      }
    }
  }

  lemma NothingReplaced(vals: map<string, string>)
    ensures Replaced(map[], vals) == map[]
  {
  }

  lemma {:induction false} ParseAppended(keys: seq<string>, vals: map<string, string>, seen: set<string>)
    requires AllFaithful(vals)
    ensures ParseLines(Appended(keys, vals, seen)) == map k | k in vals && k in keys && k !in seen :: vals[k]
  {
    hide Assigned, Line;
    if keys != [] {
      var n := |keys| - 1;
      var front, k := keys[..n], keys[n];
      ParseAppended(front, vals, seen);
      assert keys == front + [k];
      if k !in seen && k in vals {
        assert Faithful(k, vals[k]);
        ParseSnoc(Appended(front, vals, seen), Line(k, vals[k]));
      }
    }
  }

  /** Reading back what was rendered gives the old settings overridden by the updates, whatever comments,
      blank lines and duplicate keys the text has. */
  lemma RoundTrip(lines: seq<string>, d: Dict)
    requires IsDict(d) && AllFaithful(d.vals)
    ensures ParseLines(Render(lines, d)) == ParseLines(lines) + d.vals
  {
    hide AllFaithful, RenderLines, Appended, ParseLines;
    ParseConcat(RenderLines(lines, d.vals), Appended(d.keys, d.vals, SeenKeys(lines, d.vals)));
    ParseRendered(lines, d.vals);
    ParseAppended(d.keys, d.vals, SeenKeys(lines, d.vals));
  }

  // ----- rendering twice -----

  lemma RenderLineTwice(line: string, vals: map<string, string>)
    requires AllFaithful(vals)
    ensures RenderLine(RenderLine(line, vals), vals) == RenderLine(line, vals)
  {
    hide Assigned, Line;
    if Assigned(line).Some? && Assigned(line).value.0 in vals {
      assert Faithful(Assigned(line).value.0, vals[Assigned(line).value.0]);
    }
  }

  lemma {:induction false} RenderLinesTwice(lines: seq<string>, vals: map<string, string>)
    requires forall i | 0 <= i < |lines| :: RenderLine(lines[i], vals) == lines[i]
    ensures RenderLines(lines, vals) == lines
  {
    hide RenderLine;
    if lines != [] {
      RenderLinesTwice(lines[..|lines| - 1], vals);
    }
  }

  lemma {:induction false} RenderedLines(lines: seq<string>, vals: map<string, string>)
    ensures |RenderLines(lines, vals)| == |lines|
    ensures forall i | 0 <= i < |lines| :: RenderLines(lines, vals)[i] == RenderLine(lines[i], vals)
  {
    hide RenderLine;
    if lines != [] {
      RenderedLines(lines[..|lines| - 1], vals);
    }
  }

  lemma {:induction false} AppendedStable(keys: seq<string>, vals: map<string, string>, seen: set<string>)
    requires AllFaithful(vals)
    ensures forall i | 0 <= i < |Appended(keys, vals, seen)| ::
              RenderLine(Appended(keys, vals, seen)[i], vals) == Appended(keys, vals, seen)[i]
  {
    hide Assigned, Line;
    if keys != [] {
      AppendedStable(keys[..|keys| - 1], vals, seen);
      var k := keys[|keys| - 1];
      if k in vals {
        assert Faithful(k, vals[k]);
      }
    }
  }

  lemma {:induction false} NothingMissing(keys: seq<string>, vals: map<string, string>, seen: set<string>)
    requires forall k | k in vals :: k in seen
    ensures Appended(keys, vals, seen) == []
  {
    if keys != [] {
      NothingMissing(keys[..|keys| - 1], vals, seen);
    }
  }

  /** Rendering again with the same updates changes nothing. */
  lemma RenderTwice(lines: seq<string>, d: Dict)
    requires IsDict(d) && AllFaithful(d.vals)
    ensures Render(Render(lines, d), d) == Render(lines, d)
  {
    hide AllFaithful, RenderLine;
    var seen := SeenKeys(lines, d.vals);
    var out := Render(lines, d);
    RenderedLines(lines, d.vals);
    AppendedStable(d.keys, d.vals, seen);
    forall i | 0 <= i < |out| ensures RenderLine(out[i], d.vals) == out[i] {
      if i < |lines| {
        RenderLineTwice(lines[i], d.vals);
      } else {
        assert out[i] == Appended(d.keys, d.vals, seen)[i - |lines|];
      }
    }
    RenderLinesTwice(out, d.vals);
    RoundTrip(lines, d);
    NothingMissing(d.keys, d.vals, SeenKeys(out, d.vals));
  }

  // ----- which updates are faithful -----

  ghost predicate CleanKey(k: string) {
    Strip(k) == k && '=' !in k && (k == "" || k[0] != '#')
  }

  ghost predicate CleanValue(v: string) {
    Unquote(Strip(v)) == v
  }

  lemma {:induction false} RStripAfter(a: string, b: string, drop: char -> bool)
    requires a != "" && !drop(a[|a| - 1])
    ensures RStrip(a + b, drop) == a + RStrip(b, drop)
  {
    if b == "" {
      assert a + b == a;
    } else {
      var n := |b| - 1;
      assert (a + b)[..|a + b| - 1] == a + b[..n];
      if drop(b[n]) {
        RStripAfter(a, b[..n], drop);
      }
    }
  }

  lemma {:induction false} RStripThenLeft(s: string, drop: char -> bool)
    ensures LStrip(RStrip(s, drop), drop) == RStrip(LStrip(s, drop), drop)
  {
    if s != "" && drop(s[0]) {
      RStripThenLeft(s[1..], drop);
      RStripHead(s, drop);
    } else if s != "" {
      RStripAfter(s[..1], s[1..], drop);
      assert s == s[..1] + s[1..];
    }
  }

  /** Stripping the right commutes with dropping a leading character that would be stripped anyway. */
  lemma {:induction false} RStripHead(s: string, drop: char -> bool)
    requires s != "" && drop(s[0])
    ensures LStrip(RStrip(s, drop), drop) == LStrip(RStrip(s[1..], drop), drop)
  {
    var n := |s| - 1;
    if drop(s[n]) {
      if n > 0 {
        RStripHead(s[..n], drop);
        assert s[..n][1..] == s[1..][..n - 1];
      } else {
        assert s[..n] == "" && s[1..] == "";
      }
    } else {
      assert s[1..] != "" && s[1..][n - 1] == s[n];
    }
  }

  lemma RStripTwice(s: string, drop: char -> bool)
    ensures RStrip(RStrip(s, drop), drop) == RStrip(s, drop)
  {
  }

  /** Stripping what is already stripped on the right gives the same. */
  lemma StripOfRStrip(v: string)
    ensures Strip(RStrip(v, SPACE)) == Strip(v)
  {
    RStripThenLeft(v, SPACE);
    RStripTwice(LStrip(v, SPACE), SPACE);
  }

  lemma StrippedEnds(k: string)
    requires Strip(k) == k
    ensures k == "" || (!IsSpace(k[0]) && LStrip(k, SPACE) == k)
  {
    var l := LStrip(k, SPACE);
    if k != "" {
      assert k == RStrip(l, SPACE) && k <= l;
      assert k[0] == l[0];
    }
  }

  /** With a stripped key, stripping the assignment only trims the value's right end. */
  lemma StripAssignment(k: string, v: string)
    requires Strip(k) == k
    ensures Strip(Line(k, v)) == k + "=" + RStrip(v, SPACE)
  {
    StrippedEnds(k);
    var head := k + "=";
    assert Line(k, v) == head + v;
    assert !IsSpace((head + v)[0]);
    RStripAfter(head, v, SPACE);
  }

  lemma FirstEq(k: string, rest: string)
    requires '=' !in k
    ensures IndexOfEq(k + "=" + rest) == |k|
  {
    var s := k + "=" + rest;
    var i := IndexOfEq(s);
    assert s[|k|] == '=' && forall j | 0 <= j < |k| :: s[j] == k[j] && k[j] != '=';
  }

  lemma CleanIsFaithful(k: string, v: string)
    requires CleanKey(k)
    ensures Assigned(Line(k, v)) == Some((k, Unquote(Strip(v))))
  {
    hide Unquote;
    StripAssignment(k, v);
    var r := RStrip(v, SPACE);
    var s := k + "=" + r;
    FirstEq(k, r);
    assert s[..|k|] == k && s[|k| + 1..] == r;
    StripOfRStrip(v);
    assert s[0] != '#';
  }

  lemma StripTwice(s: string)
    ensures Strip(Strip(s)) == Strip(s)
  {
    var l := LStrip(s, SPACE);
    var r := RStrip(l, SPACE);
    if r != "" {
      assert r[0] == l[0];
    }
    RStripTwice(l, SPACE);
  }

  /** The key a line assigns is stripped and has no '='. */
  lemma AssignedKey(line: string)
    requires Assigned(line).Some?
    ensures Strip(Assigned(line).value.0) == Assigned(line).value.0 && '=' !in Assigned(line).value.0
  {
    var s := Strip(line);
    var head := s[..IndexOfEq(s)];
    StripTwice(head);
    assert Strip(head) <= LStrip(head, SPACE);
    assert forall c | c in Strip(head) :: c in LStrip(head, SPACE);
  }

  /** An update reads back as itself exactly when its key is stripped, holds no '=' and starts no comment,
      and its value is what stripping space and quotes leaves. */
  lemma FaithfulIffClean(k: string, v: string)
    ensures Faithful(k, v) <==> CleanKey(k) && CleanValue(v)
  {
    hide Unquote, Strip, StripBy, IndexOfEq;
    if CleanKey(k) {
      CleanIsFaithful(k, v);
    } else if Faithful(k, v) {
      AssignedKey(Line(k, v));
      CommentIsIgnored(k, v);
    }
  }

  lemma CommentIsIgnored(k: string, v: string)
    requires Strip(k) == k && k != "" && k[0] == '#'
    ensures Assigned(Line(k, v)) == None
  {
    hide Unquote;
    StripAssignment(k, v);
  }

  /** One update into an empty file survives the round trip exactly when it is clean. */
  lemma SingleUpdate(k: string, v: string)
    ensures ParseLines(Render([], Dict([k], map[k := v]))) == map[k := v] <==> CleanKey(k) && CleanValue(v)
  {
    hide CleanKey, CleanValue, Assigned, Line;
    FaithfulIffClean(k, v);
    var d := Dict([k], map[k := v]);
    assert SeenKeys([], d.vals) == {};
    assert d.keys[..0] == [] && d.keys[0] == k;
    assert Appended(d.keys, d.vals, {}) == [Line(k, v)];
    assert Render([], d) == [Line(k, v)];
    assert [] + [Line(k, v)] == [Line(k, v)];
    ParseSnoc([], Line(k, v));
    if Assigned(Line(k, v)).Some? {
      var kv := Assigned(Line(k, v)).value;
      assert kv.0 in map[kv.0 := kv.1] && map[kv.0 := kv.1][kv.0] == kv.1;
    } else {
      assert k in map[k := v];
    }
  }

  // ----- the text of the file -----

  function BreakAt(s: string): (k: nat)
    ensures k <= |s|
    ensures k < |s| ==> IsBreak(s[k])
    ensures forall i | 0 <= i < k :: !IsBreak(s[i])
  {
    if s == "" || IsBreak(s[0]) then 0 else 1 + BreakAt(s[1..])
  }

  /** str.splitlines: any line break ends a line, CR LF counts as one, no empty line after the last. */
  function SplitLines(s: string): seq<string> {
    var k := BreakAt(s);
    if s == "" then []
    else if k == |s| then [s]
    else
      var next := if s[k] == '\r' && k + 1 < |s| && s[k + 1] == '\n' then k + 2 else k + 1;
      [s[..k]] + SplitLines(s[next..])
  }

  /** "\n".join(lines) + "\n" */
  function ToText(lines: seq<string>): string {
    if |lines| == 0 then "\n"
    else if |lines| == 1 then lines[0] + "\n"
    else lines[0] + "\n" + ToText(lines[1..])
  }

  ghost predicate OneLine(s: string) { forall c | c in s :: !IsBreak(c) }

  ghost predicate AllOneLine(lines: seq<string>) { forall i | 0 <= i < |lines| :: OneLine(lines[i]) }

  lemma FirstBreak(line: string, rest: string)
    requires OneLine(line)
    ensures BreakAt(line + "\n" + rest) == |line|
  {
    var s := line + "\n" + rest;
    assert IsBreak(s[|line|]) && forall j | 0 <= j < |line| :: s[j] == line[j] && line[j] in line;
  }

  lemma SplitFirst(line: string, rest: string)
    requires OneLine(line)
    ensures SplitLines(line + "\n" + rest) == [line] + SplitLines(rest)
  {
    FirstBreak(line, rest);
    var s := line + "\n" + rest;
    assert s[|line|] == '\n' && s[..|line|] == line && s[|line| + 1..] == rest;
  }

  /** CR LF ends one line, not two. */
  lemma SplitCrLf(line: string, rest: string)
    requires OneLine(line)
    ensures SplitLines(line + "\r\n" + rest) == [line] + SplitLines(rest)
  {
    var s := line + "\r\n" + rest;
    assert IsBreak(s[|line|]) && forall j | 0 <= j < |line| :: s[j] == line[j] && line[j] in line;
    assert BreakAt(s) == |line|;
    assert s[|line|] == '\r' && s[|line| + 1] == '\n' && s[..|line|] == line && s[|line| + 2..] == rest;
  }

  lemma {:induction false} SplitOfText(lines: seq<string>)
    requires AllOneLine(lines) && lines != []
    ensures SplitLines(ToText(lines)) == lines
  {
    if |lines| == 1 {
      SplitFirst(lines[0], "");
      assert lines[0] + "\n" + "" == lines[0] + "\n";
      assert lines == [lines[0]] + [];
    } else {
      SplitOfText(lines[1..]);
      SplitFirst(lines[0], ToText(lines[1..]));
      assert lines == [lines[0]] + lines[1..];
    }
  }

  lemma BlankFile()
    ensures ParseLines(SplitLines("\n")) == map[]
  {
    SplitFirst("", "");
    assert "" + "\n" + "" == "\n";
    assert SplitLines("\n") == [""];
    assert [] + [""] == [""];
    ParseSnoc([], "");
  }

  /** Writing the rendered lines to the file and reading the file back: the old settings overridden by the
      updates, provided neither lines nor updates contain line breaks. */
  lemma FileRoundTrip(lines: seq<string>, d: Dict)
    requires IsDict(d) && AllFaithful(d.vals) && AllOneLine(Render(lines, d))
    ensures ParseLines(SplitLines(ToText(Render(lines, d)))) == ParseLines(lines) + d.vals
  {
    hide AllFaithful, Render, ParseLines;
    RoundTrip(lines, d);
    var out := Render(lines, d);
    if out == [] {
      BlankFile();
      ParseNothing();
    } else {
      SplitOfText(out);
    }
  }

  lemma ParseNothing()
    ensures ParseLines([]) == map[]
  {
  }
}
