/**
 The incremental reader against the driver's whole-body parser, and what a stream finally costs.
 */
module StreamParity {
  import opened Base
  import opened Billing
  import opened Pricing
  import opened StreamMeter

  /** What reached the client, keepalives aside, is a whole-line prefix of the source. */
  lemma BodyIsPrefix(src: string, n: nat)
    requires n <= |Lines(src)|
    ensures Join(Lines(src)[..n]) <= src
  {
    var lines := Lines(src);
    assert lines == lines[..n] + lines[n..];
    JoinConcat(lines[..n], lines[n..]);
    JoinLines(src);
  }

  // ----- the driver's parser -----

  /** The last usage member JavaScript finds truthy. */
  function LastTruthy(json: string -> Chunk, payloads: seq<string>): Option<Chunk> {
    if payloads == [] then None
    else
      var c := json(payloads[|payloads| - 1]);
      if c.HasUsage? || c.OddUsage? then Some(c) else LastTruthy(json, payloads[..|payloads| - 1])
  }

  /** parseSSEUsage over the whole body: a loop over the pieces of split('\n'). */
  method ParseSSEUsage(body: string, json: string -> Chunk) returns (usage: Option<Chunk>)
    ensures usage == LastTruthy(json, Payloads(Pieces(body)))
  {
    var pieces := Pieces(body);
    usage := None;
    for i := 0 to |pieces|
      invariant usage == LastTruthy(json, Payloads(pieces[..i]))
    {
      assert pieces[..i + 1][..i] == pieces[..i];
      var s := Trim(pieces[i]);
      if DATA_PREFIX <= s {
        var data := s[|DATA_PREFIX|..];
        if data != DONE {
          PayloadsSnoc(pieces[..i], pieces[i]);
          var c := json(data);
          if c.HasUsage? || c.OddUsage? {
            usage := Some(c);
          }
        }
      }
    }
    assert pieces[..|pieces|] == pieces;
  }

  lemma PayloadsSnoc(lines: seq<string>, line: string)
    ensures Payloads(lines + [line]) == Payloads(lines) + (if Data(line).Some? then [Data(line).value] else [])
  {
    assert (lines + [line])[..|lines|] == lines;
  }

  lemma NothingCarried()
    ensures Payloads([]) == []
  {
  }

  lemma {:induction false} PayloadsConcat(a: seq<string>, b: seq<string>)
    ensures Payloads(a + b) == Payloads(a) + Payloads(b)
  {
    hide Data, Payloads;
    if b == [] {
      assert a + b == a;
      NothingCarried();
    } else {
      var n := |b| - 1;
      PayloadsConcat(a, b[..n]);
      assert a + b == a + b[..n] + [b[n]];
      PayloadsSnoc(a + b[..n], b[n]);
      assert b == b[..n] + [b[n]];
      PayloadsSnoc(b[..n], b[n]);
    }
  }

  // ----- the newline a line keeps does not matter -----

  lemma {:induction false} TrimRightNewline(s: string)
    ensures TrimRight(s + [NEWLINE]) == TrimRight(s)
  {
    assert (s + [NEWLINE])[..|s|] == s;
  }

  /** Trimming the left of a line and then dropping its newline: nothing is left only if all was space. */
  lemma {:induction false} TrimNewline(s: string)
    ensures Trim(s + [NEWLINE]) == Trim(s)
  {
    if s != "" && IsSpace(s[0]) {
      TrimNewline(s[1..]);
      assert (s + [NEWLINE])[1..] == s[1..] + [NEWLINE];
    } else if s == "" {
      assert s + [NEWLINE] == [NEWLINE];
      assert [NEWLINE][1..] == "";
    } else {
      TrimRightNewline(s);
    }
  }

  lemma DataNewline(s: string)
    ensures Data(s + [NEWLINE]) == Data(s)
  {
    TrimNewline(s);
  }

  lemma OnePayload(line: string)
    ensures Payloads([line]) == if Data(line).Some? then [Data(line).value] else []
  {
    assert [] + [line] == [line];
    PayloadsSnoc([], line);
  }

  lemma BlankHasNoPayload()
    ensures Payloads([""]) == []
  {
    OnePayload("");
  }

  /** Both ways of cutting the body give the same payloads. */
  lemma {:induction false} SamePayloads(s: string)
    ensures Payloads(Lines(s)) == Payloads(Pieces(s))
    decreases |s|
  {
    hide Data, Payloads, Lines, Pieces;
    UnfoldPieces(s);
    if s == "" {
      BlankHasNoPayload();
      NoLines();
    } else {
      var k, n := NewlineAt(s), LineLength(s);
      UnfoldLines(s);
      PayloadsConcat([s[..n]], Lines(s[n..]));
      OnePayload(s[..n]);
      if k < |s| {
        SamePayloads(s[n..]);
        PayloadsConcat([s[..k]], Pieces(s[n..]));
        OnePayload(s[..k]);
        assert s[..n] == s[..k] + [NEWLINE];
        DataNewline(s[..k]);
      } else {
        assert s[..n] == s && s[n..] == "";
        NoLines();
      }
    }
  }

  lemma {:induction false} UnfoldPieces(s: string)
    ensures Pieces(s) == if NewlineAt(s) < |s| then [s[..NewlineAt(s)]] + Pieces(s[NewlineAt(s) + 1..]) else [s]
  {
    hide NewlineAt;
  }

  lemma NoLines()
    ensures Payloads(Lines("")) == []
  {
  }

  // ----- the two parsers agree -----

  ghost predicate SameUsage(go: Option<Usage>, js: Option<Chunk>) {
    match go
    case None => js == None
    case Some(u) => js == Some(HasUsage(u))
  }

  lemma {:induction false} LastUsage(hold: int, json: string -> Chunk, payloads: seq<string>)
    ensures SameUsage(Metered(hold, json, payloads).usage, LastTruthy(json, payloads)) <==>
            LastTruthy(json, payloads) != Some(OddUsage)
  {
    if payloads != [] {
      LastUsage(hold, json, payloads[..|payloads| - 1]);
    }
  }

  lemma {:induction false} NoOddUsage(json: string -> Chunk, payloads: seq<string>)
    requires forall i | 0 <= i < |payloads| :: json(payloads[i]) != OddUsage
    ensures LastTruthy(json, payloads) != Some(OddUsage)
  {
    if payloads != [] {
      NoOddUsage(json, payloads[..|payloads| - 1]);
    }
  }

  /** For every body, the reader's last usage object is the driver's answer exactly when the last truthy
      usage member in the body is an object or there is none; in particular when all of them are objects. */
  lemma IncrementalEqualsBatch(hold: int, json: string -> Chunk, body: string)
    ensures SameUsage(MeterLines(hold, json, Lines(body)).usage, LastTruthy(json, Payloads(Pieces(body)))) <==>
            LastTruthy(json, Payloads(Pieces(body))) != Some(OddUsage)
    ensures (forall i | 0 <= i < |Payloads(Lines(body))| :: json(Payloads(Lines(body))[i]) != OddUsage) ==>
            SameUsage(MeterLines(hold, json, Lines(body)).usage, LastTruthy(json, Payloads(Pieces(body))))
  {
    hide Payloads;
    SamePayloads(body);
    LastUsage(hold, json, Payloads(Lines(body)));
    if forall i | 0 <= i < |Payloads(Lines(body))| :: json(Payloads(Lines(body))[i]) != OddUsage {
      NoOddUsage(json, Payloads(Lines(body)));
    }
  }

  /** mergeMaps: the patch over the base, nil when nothing is left. */
  function MergeMaps(base: Option<Usage>, patch: Usage): Option<Usage> {
    var out := (match base case None => map[] case Some(m) => m) + patch;
    if out == map[] then None else Some(out)
  }

  /** parseSSEUsage's return value as a map: `usage || {}`. */
  function DriverUsage(js: Option<Chunk>): Usage {
    if js.Some? && js.value.HasUsage? then js.value.usage else map[]
  }

  // ----- what was copied, parsed again -----

  /** A line that ends in a newline is cut off as it is, whatever follows. */
  lemma CutFirst(line: string, rest: string)
    requires line != "" && LineLength(line) == |line| && line[|line| - 1] == NEWLINE
    ensures Lines(line + rest) == [line] + Lines(rest)
  {
    var s := line + rest;
    assert NewlineAt(line) == |line| - 1;
    assert s[|line| - 1] == NEWLINE;
    assert forall i | 0 <= i < |line| - 1 :: s[i] == line[i];
    assert NewlineAt(s) == |line| - 1;
    assert s[..|line|] == line && s[|line|..] == rest;
  }

  /** The first line of a text ends in its only newline, unless it is all there is. */
  lemma FirstLine(src: string)
    requires src != ""
    ensures var line, rest := src[..LineLength(src)], src[LineLength(src)..];
            && Lines(src) == [line] + Lines(rest)
            && (if rest == "" then line == src && Lines(line) == [line]
                else LineLength(line) == |line| > 0 && line[|line| - 1] == NEWLINE)
  {
    hide Lines;
    var line, rest := src[..LineLength(src)], src[LineLength(src)..];
    UnfoldLines(src);
    if rest == "" {
      assert line == src && [line] + [] == [line];
      NothingLeft("");
    } else {
      assert line[NewlineAt(src)] == NEWLINE;
      assert forall i | 0 <= i < NewlineAt(src) :: line[i] == src[i];
      assert NewlineAt(line) == |line| - 1;
    }
  }

  lemma {:induction false} UnfoldLines(src: string)
    requires src != ""
    ensures Lines(src) == [src[..LineLength(src)]] + Lines(src[LineLength(src)..])
  {
    hide NewlineAt, LineLength;
  }

  /** The body buffer falls apart into the very lines that were copied. */
  lemma {:induction false} LinesOfPrefix(src: string, n: nat)
    requires n <= |Lines(src)|
    ensures Lines(Join(Lines(src)[..n])) == Lines(src)[..n]
    decreases |src|
  {
    hide Lines, Join, LineLength, NewlineAt;
    NothingLeft(src);
    if n == 0 {
      JoinNothing();
      NothingLeft("");
      assert Lines(src)[..n] == [];
    } else {
      var line, rest := src[..LineLength(src)], src[LineLength(src)..];
      FirstLine(src);
      var tail := Lines(rest)[..n - 1];
      assert Lines(src)[..n] == [line] + tail;
      JoinCons(line, tail);
      LinesOfPrefix(rest, n - 1);
      if rest == "" {
        NothingLeft("");
        JoinNothing();
        assert tail == [] && line + "" == line;
      } else {
        CutFirst(line, Join(tail));
      }
    }
  }

  lemma JoinNothing()
    ensures Join([]) == ""
  {
  }

  /** What a stream reports: the usage it carried, or the chunk estimate, or how it broke off, or nothing. */
  function Reported(m: Meter, error: Option<Usage>): Option<Usage> {
    if m.usage.Some? then (if m.usage.value == map[] then None else m.usage)
    else if m.chunks > 0 then Some(Fallback(m.est))
    else error
  }

  /** The reader's result merged with the driver's parse of the body buffer, for every prefix that was copied. */
  lemma MergedUsage(hold: int, json: string -> Chunk, src: string, n: nat, error: Option<Usage>)
    requires n <= |Lines(src)| && LastTruthy(json, Payloads(Lines(src)[..n])) != Some(OddUsage)
    requires error.Some? ==> error.value != map[]
    ensures var m := MeterLines(hold, json, Lines(src)[..n]);
            var base := if Finalized(m) == None then error else Finalized(m);
            var body := Join(Lines(src)[..n]);
            MergeMaps(base, DriverUsage(LastTruthy(json, Payloads(Pieces(body))))) == Reported(m, error)
  {
    hide Payloads;
    var body := Join(Lines(src)[..n]);
    LinesOfPrefix(src, n);
    SamePayloads(body);
    IncrementalEqualsBatch(hold, json, body);
    var m := MeterLines(hold, json, Lines(src)[..n]);
    if m.usage.Some? {
      assert m.usage.value + m.usage.value == m.usage.value;
    } else {
      assert Fallback(m.est) + map[] == Fallback(m.est);
      assert "fallback" in Fallback(m.est);
      if error.Some? {
        assert error.value + map[] == error.value;
      }
    }
  }

  /** The streaming branch of ServeHTTP with a driver that parses responses: copy, note how it broke off, let the
      driver parse the body buffer, merge. */
  method ServeStream(hold: int, src: string, failing: bool, sourceError: string, ticks: nat -> Tick, json: string -> Chunk)
    returns (usage: Option<Usage>, body: string, ending: Ending)
    ensures Lines(body) <= Lines(src) && body <= src
    ensures LastTruthy(json, Payloads(Lines(body))) != Some(OddUsage) ==>
              usage == Reported(MeterLines(hold, json, Lines(body)), BrokenOff(ending, sourceError))
    ensures ending == CapHit <==> MeterLines(hold, json, Lines(body)).capped
    ensures ending == Finished ==> body == src
  {
    hide Payloads, MeterLines, Lines, Join, Pieces, LastTruthy, MergeMaps, BrokenOff, Finalized, Reported;
    var reader := new MeteringReader(hold);
    var total;
    ghost var n;
    total, ending, n := reader.Copy(src, failing, ticks, json);
    body := reader.body;
    LinesOfPrefix(src, n);
    BodyIsPrefix(src, n);
    JoinLines(src);
    assert Lines(src)[..|Lines(src)|] == Lines(src);
    var base := reader.usage;
    if ending != Finished && base == None {
      base := BrokenOff(ending, sourceError);
    }
    BrokenOffSaysSo(ending, sourceError);
    var parsed := ParseSSEUsage(body, json);
    usage := MergeMaps(base, DriverUsage(parsed));
    if LastTruthy(json, Payloads(Lines(body))) != Some(OddUsage) {
      MergedUsage(hold, json, src, n, BrokenOff(ending, sourceError));
    }
  }

  lemma BrokenOffSaysSo(ending: Ending, sourceError: string)
    ensures BrokenOff(ending, sourceError) == None <==> ending == Finished
    ensures BrokenOff(ending, sourceError).Some? ==> BrokenOff(ending, sourceError).value != map[]
  {
    var note := BrokenOff(ending, sourceError);
    assert note.Some? ==> "error" in note.value || "soft_cap" in note.value;
  }

  /** The handler's note when a stream broke off without usage. */
  function BrokenOff(ending: Ending, sourceError: string): Option<Usage> {
    match ending
    case Finished => None
    case Cancelled => Some(map["error" := Text("context canceled")])
    case TimedOut => Some(map["error" := Text("context deadline exceeded")])
    case SourceFailed => Some(map["error" := Text(sourceError)])
    case CapHit => Some(map["soft_cap" := Other])
  }

  // ----- the soft cap through pricing -----

  lemma OneTermAtMostSum(q: map<string, real>, rates: map<string, int>, unit: string)
    requires unit in q && (forall u | u in q :: q[u] >= 0.0) && (forall u | u in rates :: rates[u] >= 0)
    ensures Term(q, rates, unit) <= SumTerms(q, rates, q.Keys)
  {
    hide Term;
    SumPick(q, rates, q.Keys, unit);
    SumMonotone(q, q, rates, q.Keys - {unit});
  }

  lemma OutputQuantity(raw: Usage, est: int)
    requires "output_tokens" in raw && raw["output_tokens"] == Num(est as real)
    ensures "TOK_OUTPUT" in Quantities(raw) && Quantities(raw)["TOK_OUTPUT"] == est as real
  {
    assert Quantity(raw, "output_tokens") == Some(est as real);
  }

  lemma OutputTerm(pm: Model, raw: Usage, est: int)
    requires "output_tokens" in raw && raw["output_tokens"] == Num(est as real)
    requires NonNegativeInputs(pm, raw) && "TOK_OUTPUT" in Rates(pm, raw)
    ensures TableSum(pm, raw) >= est * Rates(pm, raw)["TOK_OUTPUT"]
    ensures "TOK_OUTPUT" in Quantities(raw)
  {
    hide Quantities, Rates, Round, SumTerms;
    OutputQuantity(raw, est);
    OneTermAtMostSum(Quantities(raw), Rates(pm, raw), "TOK_OUTPUT");
    WholeProduct(est, Rates(pm, raw)["TOK_OUTPUT"]);
  }

  lemma WholeProduct(a: int, b: int)
    ensures Round(a as real * b as real) == a * b
  {
    assert a as real * b as real == (a * b) as real;
    RoundWhole(a * b);
  }

  lemma RateTimes(est: int, rate: int)
    requires est >= 0 && rate >= 900
    ensures est * rate >= 900 * est
  {
  }

  /** A stream the soft cap cut, metered by its estimate and priced by a table with at least 900 per output
      token, captures its whole hold and releases nothing. */
  lemma SoftCapCapturesHold(hold: int, json: string -> Chunk, lines: seq<string>, pm: Model, raw: Usage)
    requires hold > 0 && MeterLines(hold, json, lines).capped
    requires "output_tokens" in raw && raw["output_tokens"] == Num(MeterLines(hold, json, lines).est as real)
    requires NonNegativeInputs(pm, raw) && "TOK_OUTPUT" in Rates(pm, raw) && Rates(pm, raw)["TOK_OUTPUT"] >= 900
    ensures CaptureRelease(hold, TableCharge(pm, raw)) == (hold, 0)
  {
    hide MeterLines, TableSum;
    var est := MeterLines(hold, json, lines).est;
    CapLaw(hold, json, lines);
    EstimateWithinBytes(hold, json, lines);
    OutputTerm(pm, raw, est);
    RateTimes(est, Rates(pm, raw)["TOK_OUTPUT"]);
  }

  /** At exactly 900 per output token and nothing else billed, an uncapped estimated stream captures
      max(900 * est, minimum), clipped to the hold. */
  lemma UncappedCaptures(hold: int, json: string -> Chunk, lines: seq<string>, pm: Model)
    requires var m := MeterLines(hold, json, lines);
             var raw := Fallback(m.est);
             && hold > 0 && !m.capped && m.chunks > 0 && pm.minimum >= 0
             && NonNegativeInputs(pm, raw)
             && "TOK_OUTPUT" in Rates(pm, raw) && Rates(pm, raw)["TOK_OUTPUT"] == 900
    ensures var m := MeterLines(hold, json, lines);
            CaptureRelease(hold, TableCharge(pm, Fallback(m.est))).0 == Min(hold, Max(900 * m.est, pm.minimum))
  {
    hide MeterLines;
    var est := MeterLines(hold, json, lines).est;
    EstimateWithinBytes(hold, json, lines);
    FallbackSum(pm, est);
  }

  lemma FallbackSum(pm: Model, est: int)
    requires est >= 0 && "TOK_OUTPUT" in Rates(pm, Fallback(est)) && Rates(pm, Fallback(est))["TOK_OUTPUT"] == 900
    ensures TableSum(pm, Fallback(est)) == 900 * est && Quantities(Fallback(est)) != map[]
  {
    var raw := Fallback(est);
    var q, rates := Quantities(raw), Rates(pm, raw);
    assert Quantity(raw, "output_tokens") == Some(est as real);
    assert Quantity(raw, "input_tokens") == Some(0.0);
    assert q.Keys == {"TOK_OUTPUT", "TOK_INPUT"};
    SumPick(q, rates, q.Keys, "TOK_OUTPUT");
    assert q.Keys - {"TOK_OUTPUT"} == {"TOK_INPUT"};
    SumPick(q, rates, {"TOK_INPUT"}, "TOK_INPUT");
    assert {"TOK_INPUT"} - {"TOK_INPUT"} == {};
    WholeProduct(est, 900);
    if "TOK_INPUT" in rates {
      ZeroProduct(rates["TOK_INPUT"]);
    }
  }

  lemma ZeroProduct(rate: int)
    ensures Round(0.0 * rate as real) == 0
  {
    assert 0.0 * rate as real == 0.0;
  }
}
