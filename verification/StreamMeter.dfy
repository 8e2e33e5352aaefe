/**
 The streaming proxy's metering reader (internal/proxy/stream_meter.go) and the OpenRouter driver's
 parser of the same bytes.  Text is ASCII; JSON decoding is one abstract function both sides share.
 Server-sent events are handled as one-line `data: ` fields, a subset of section 9.2.6 of the
 WHATWG HTML Living Standard.
 */
module StreamMeter {
  import opened Base
  import opened Pricing

  // ----- lines and data fields -----

  const NEWLINE := '\n'

  predicate IsSpace(c: char) {
    c == ' ' || c == '\t' || c == '\n' || c == '\r' || c == '\U{0B}' || c == '\U{0C}'
  }

  /** The six ASCII characters of white space. */
  lemma SpaceLaw(c: char)
    ensures IsSpace(c) <==> c == ' ' || '\t' <= c <= '\r'
  {
  }

  function TrimLeft(s: string): (t: string)
    ensures |t| <= |s|
  {
    if s != "" && IsSpace(s[0]) then TrimLeft(s[1..]) else s
  }

  function TrimRight(s: string): (t: string)
    ensures |t| <= |s|
  {
    if s != "" && IsSpace(s[|s| - 1]) then TrimRight(s[..|s| - 1]) else s
  }

  function Trim(s: string): (t: string)
    ensures |t| <= |s|
  {
    TrimRight(TrimLeft(s))
  }

  const DATA_PREFIX := "data: "
  const DONE := "[DONE]"
  const KEEPALIVE := ": keepalive\n\n"

  /** The payload of a data line, unless it is the end marker. */
  function Data(line: string): (d: Option<string>)
    ensures d.Some? ==> |d.value| <= |line|
  {
    var s := Trim(line);
    if !(DATA_PREFIX <= s) then None
    else if s[|DATA_PREFIX|..] == DONE then None
    else Some(s[|DATA_PREFIX|..])
  }

  ghost predicate AllSpace(s: string) { forall c | c in s :: IsSpace(c) }

  lemma {:induction false} TrimLeftLaw(s: string) returns (a: string)
    ensures s == a + TrimLeft(s) && AllSpace(a)
    ensures TrimLeft(s) == "" || !IsSpace(TrimLeft(s)[0])
  {
    a := "";
    if s != "" && IsSpace(s[0]) {
      a := TrimLeftLaw(s[1..]);
      a := [s[0]] + a;
      assert s == [s[0]] + s[1..];
    }
  }

  lemma {:induction false} TrimRightLaw(s: string) returns (b: string)
    ensures s == TrimRight(s) + b && AllSpace(b)
    ensures TrimRight(s) == "" || !IsSpace(TrimRight(s)[|TrimRight(s)| - 1])
  {
    b := "";
    if s != "" && IsSpace(s[|s| - 1]) {
      b := TrimRightLaw(s[..|s| - 1]);
      b := b + [s[|s| - 1]];
      assert s == s[..|s| - 1] + [s[|s| - 1]];
    }
  }

  /** Trimming takes exactly the white space off both ends. */
  lemma TrimLaw(s: string) returns (a: string, b: string)
    ensures s == a + Trim(s) + b && AllSpace(a) && AllSpace(b)
    ensures Trim(s) == "" || (!IsSpace(Trim(s)[0]) && !IsSpace(Trim(s)[|Trim(s)| - 1]))
  {
    a := TrimLeftLaw(s);
    b := TrimRightLaw(TrimLeft(s));
    assert Trim(s) != "" ==> Trim(s)[0] == TrimLeft(s)[0];
  }

  /** A line carries a payload exactly when it is, trimmed, `data: ` and the payload, which is not the end marker. */
  lemma DataLaw(line: string, d: string)
    ensures Data(line) == Some(d) <==> Trim(line) == "data: " + d && d != "[DONE]"
  {
    hide Trim;
    var s := Trim(line);
    if DATA_PREFIX <= s {
      assert s == DATA_PREFIX + s[|DATA_PREFIX|..];
    }
    if s == DATA_PREFIX + d {
      assert s[|DATA_PREFIX|..] == d;
    }
  }

  function NewlineAt(s: string): (k: nat)
    ensures k <= |s|
    ensures k < |s| ==> s[k] == NEWLINE
    ensures forall i | 0 <= i < k :: s[i] != NEWLINE
  {
    if s == "" then 0 else if s[0] == NEWLINE then 0 else 1 + NewlineAt(s[1..])
  }

  /** How many bytes one bufio.Reader.ReadBytes('\n') call returns: through the newline, or all that is left. */
  function LineLength(s: string): (n: nat)
    ensures n <= |s| && (s != "" ==> n > 0)
  {
    if NewlineAt(s) < |s| then NewlineAt(s) + 1 else |s|
  }

  /** What successive ReadBytes calls return. */
  function Lines(s: string): seq<string> {
    if s == "" then [] else [s[..LineLength(s)]] + Lines(s[LineLength(s)..])
  }

  /** JavaScript's split('\n'): the same lines without their newlines, and always one more piece. */
  function Pieces(s: string): seq<string> {
    var k := NewlineAt(s);
    if k < |s| then [s[..k]] + Pieces(s[k + 1..]) else [s]
  }

  function Join(parts: seq<string>): string {
    if parts == [] then "" else Join(parts[..|parts| - 1]) + parts[|parts| - 1]
  }

  /** The payloads of a list of lines, in order. */
  function Payloads(lines: seq<string>): seq<string> {
    if lines == [] then []
    else
      var front := Payloads(lines[..|lines| - 1]);
      match Data(lines[|lines| - 1])
      case None => front
      case Some(d) => front + [d]
  }

  // ----- what a list of payloads meters to -----

  /** A decoded payload: the usage member is an object, something else that is truthy, or neither. */
  datatype Chunk = Invalid | NoUsage | HasUsage(usage: Usage) | OddUsage

  datatype Meter = Meter(usage: Option<Usage>, chunks: nat, est: int, capped: bool)

  const IDLE := Meter(None, 0, 0, false)

  /** parseLine on a data payload. */
  function Add(m: Meter, hold: int, json: string -> Chunk, data: string): Meter {
    var est := m.est + |data| / 4;
    Meter(match json(data) case HasUsage(u) => Some(u) case _ => m.usage,
          m.chunks + 1, est, m.capped || (hold > 0 && est * 900 > hold))
  }

  function Metered(hold: int, json: string -> Chunk, payloads: seq<string>): Meter {
    if payloads == [] then IDLE
    else Add(Metered(hold, json, payloads[..|payloads| - 1]), hold, json, payloads[|payloads| - 1])
  }

  function MeterLines(hold: int, json: string -> Chunk, lines: seq<string>): Meter {
    Metered(hold, json, Payloads(lines))
  }

  /** finalizeUsage's estimate, as the worker decodes it. */
  function Fallback(est: int): Usage {
    map["output_tokens" := Num(est as real), "input_tokens" := Num(0.0), "fallback" := Text("chunk_estimate")]
  }

  function Finalized(m: Meter): Option<Usage> {
    if m.usage.Some? then m.usage
    else if m.chunks > 0 then Some(Fallback(m.est))
    else None
  }

  // ----- lines partition the source -----

  lemma JoinCons(head: string, tail: seq<string>)
    ensures Join([head] + tail) == head + Join(tail)
  {
    if tail == [] {
      assert [head] + tail == [head];
      assert [head][..0] == [];
    } else {
      JoinCons(head, tail[..|tail| - 1]);
      assert ([head] + tail)[..|tail|] == [head] + tail[..|tail| - 1];
    }
  }

  lemma {:induction false} JoinLines(s: string)
    ensures Join(Lines(s)) == s
  {
    if s != "" {
      var n := LineLength(s);
      JoinLines(s[n..]);
      JoinCons(s[..n], Lines(s[n..]));
      assert s == s[..n] + s[n..];
    }
  }

  lemma {:induction false} JoinConcat(a: seq<string>, b: seq<string>)
    ensures Join(a + b) == Join(a) + Join(b)
  {
    if b == [] {
      assert a + b == a;
    } else {
      JoinConcat(a, b[..|b| - 1]);
      assert (a + b)[..|a + b| - 1] == a + b[..|b| - 1];
    }
  }

  /** A line holds at most one newline, at its end, so none is the keepalive comment. */
  lemma LineIsNotKeepalive(s: string)
    ensures s[..LineLength(s)] != KEEPALIVE
  {
    var line := s[..LineLength(s)];
    assert forall j | 0 <= j < |line| - 1 :: line[j] != NEWLINE;
    assert KEEPALIVE[|KEEPALIVE| - 2] == NEWLINE;
  }

  // ----- bounds on the estimate -----

  lemma {:induction false} MeteredSnoc(hold: int, json: string -> Chunk, payloads: seq<string>, d: string)
    ensures Metered(hold, json, payloads + [d]) == Add(Metered(hold, json, payloads), hold, json, d)
  {
    assert (payloads + [d])[..|payloads|] == payloads;
  }

  /** One more line: the same state, or one more payload. */
  lemma MeterSnoc(hold: int, json: string -> Chunk, lines: seq<string>, line: string)
    ensures MeterLines(hold, json, lines + [line])
         == match Data(line) {
              case None => MeterLines(hold, json, lines)
              case Some(d) => Add(MeterLines(hold, json, lines), hold, json, d)
            }
  {
    assert (lines + [line])[..|lines|] == lines;
    match Data(line)
    case None =>
    case Some(d) => MeteredSnoc(hold, json, Payloads(lines), d);
  }

  lemma NothingMetered(hold: int, json: string -> Chunk)
    ensures MeterLines(hold, json, []) == IDLE
  {
  }

  // ----- the meter, without the order of its updates -----

  /** One token for every four bytes of a payload, rounded down payload by payload. */
  function Quarters(payloads: seq<string>): nat {
    if payloads == [] then 0 else Quarters(payloads[..|payloads| - 1]) + |payloads[|payloads| - 1]| / 4
  }

  function Bytes(payloads: seq<string>): nat {
    if payloads == [] then 0 else Bytes(payloads[..|payloads| - 1]) + |payloads[|payloads| - 1]|
  }

  /** The last usage object among the payloads. */
  function LastObject(json: string -> Chunk, payloads: seq<string>): Option<Usage> {
    if payloads == [] then None
    else
      match json(payloads[|payloads| - 1])
      case HasUsage(u) => Some(u)
      case _ => LastObject(json, payloads[..|payloads| - 1])
  }

  lemma {:induction false} MeteredLaw(hold: int, json: string -> Chunk, payloads: seq<string>)
    ensures Metered(hold, json, payloads)
         == Meter(LastObject(json, payloads), |payloads|, Quarters(payloads), hold > 0 && 900 * Quarters(payloads) > hold)
  {
    if payloads != [] {
      MeteredLaw(hold, json, payloads[..|payloads| - 1]);
    }
  }

  /** What any lines meter to: their last usage object, the number of their payloads, a quarter of each payload's
      bytes, and the cap exactly when that estimate at 900 exceeds a positive hold. */
  lemma MeterLaw(hold: int, json: string -> Chunk, lines: seq<string>)
    ensures var d := Payloads(lines);
            MeterLines(hold, json, lines) == Meter(LastObject(json, d), |d|, Quarters(d), hold > 0 && 900 * Quarters(d) > hold)
  {
    hide Payloads;
    MeteredLaw(hold, json, Payloads(lines));
  }

  /** The estimate loses less than a token per payload. */
  lemma {:induction false} QuartersLaw(payloads: seq<string>)
    ensures Bytes(payloads) - 3 * |payloads| <= 4 * Quarters(payloads) <= Bytes(payloads)
  {
    if payloads != [] {
      QuartersLaw(payloads[..|payloads| - 1]);
    }
  }

  /** Four bytes per estimated token: the estimate never exceeds a quarter of what was copied. */
  lemma {:induction false} EstimateWithinBytes(hold: int, json: string -> Chunk, lines: seq<string>)
    ensures 0 <= 4 * MeterLines(hold, json, lines).est <= |Join(lines)|
    ensures MeterLines(hold, json, lines).capped ==> MeterLines(hold, json, lines).chunks > 0
  {
    hide Data, Metered;
    if lines == [] {
      NothingMetered(hold, json);
    } else {
      var front, last := lines[..|lines| - 1], lines[|lines| - 1];
      EstimateWithinBytes(hold, json, front);
      assert lines == front + [last];
      MeterSnoc(hold, json, front, last);
    }
  }

  /** Before the cap trips, 900 * est is within the hold; the line that trips it adds at most its own part. */
  lemma {:induction false} CapLaw(hold: int, json: string -> Chunk, lines: seq<string>)
    requires hold > 0
    ensures !MeterLines(hold, json, lines).capped ==> 900 * MeterLines(hold, json, lines).est <= hold
    ensures MeterLines(hold, json, lines).capped ==> 900 * MeterLines(hold, json, lines).est > hold
  {
    if lines != [] {
      var front, last := lines[..|lines| - 1], lines[|lines| - 1];
      CapLaw(hold, json, front);
      assert lines == front + [last];
      MeterSnoc(hold, json, front, last);
    }
  }

  lemma Overshoot(hold: int, json: string -> Chunk, lines: seq<string>)
    requires hold > 0 && lines != []
    requires !MeterLines(hold, json, lines[..|lines| - 1]).capped
    ensures var last := Data(lines[|lines| - 1]);
            900 * MeterLines(hold, json, lines).est <= hold + 900 * (if last.Some? then |last.value| / 4 else 0)
  {
    var front, last := lines[..|lines| - 1], lines[|lines| - 1];
    CapLaw(hold, json, front);
    assert lines == front + [last];
    MeterSnoc(hold, json, front, last);
  }

  // ----- the reader -----

  datatype Ending = Finished | Cancelled | TimedOut | CapHit | SourceFailed

  /** What the clock and the request context show at one turn of the loop. */
  datatype Tick = Tick(cancelled: bool, late: bool, idle: bool)

  function WithoutKeepalives(writes: seq<string>): seq<string> {
    if writes == [] then []
    else
      var front := WithoutKeepalives(writes[..|writes| - 1]);
      if writes[|writes| - 1] == KEEPALIVE then front else front + [writes[|writes| - 1]]
  }

  /** How many of the first n turns ended idle. */
  function IdleTurns(ticks: nat -> Tick, n: nat): nat {
    if n == 0 then 0 else IdleTurns(ticks, n - 1) + (if ticks(n - 1).idle then 1 else 0)
  }

  /** The last usage object, or the estimate when there were payloads without any. */
  function ReportedUsage(json: string -> Chunk, payloads: seq<string>): Option<Usage> {
    if LastObject(json, payloads).Some? || payloads == [] then LastObject(json, payloads)
    else Some(Fallback(Quarters(payloads)))
  }

  lemma LeftLaw(hold: int, json: string -> Chunk, lines: seq<string>)
    ensures var m := MeterLines(hold, json, lines);
            var d := Payloads(lines);
            m.(usage := Finalized(m)) == Meter(ReportedUsage(json, d), |d|, Quarters(d), hold > 0 && 900 * Quarters(d) > hold)
  {
    hide Payloads, MeterLines;
    MeterLaw(hold, json, lines);
    if Payloads(lines) == [] {
      NothingReported(json);
    }
  }

  lemma NothingReported(json: string -> Chunk)
    ensures LastObject(json, []) == None
  {
  }

  lemma LineEnds(rest: string)
    ensures NewlineAt(rest) < |rest| ==> Ends(rest[..LineLength(rest)])
    ensures NewlineAt(rest) == |rest| ==> rest[..LineLength(rest)] == rest && !Ends(rest)
  {
    hide NewlineAt;
  }

  lemma IdleStep(ticks: nat -> Tick, n: nat)
    ensures IdleTurns(ticks, n + 1) == IdleTurns(ticks, n) + (if ticks(n).idle then 1 else 0)
  {
  }

  predicate Ends(s: string) { s != "" && s[|s| - 1] == NEWLINE }

  /** Whether turn n, the one after n lines, is reached: they do not reach the cap and the last one has its newline. */
  predicate Reached(lines: seq<string>, n: nat)
    requires n <= |lines|
  {
    n == 0 || Ends(lines[n - 1])
  }

  class MeteringReader {
    const hold: int
    var usage: Option<Usage>
    var body: string
    var dataChunks: nat
    var estOutput: int
    var softCapExceeded: bool
    /** The Write calls on the client connection, in order. */
    var writes: seq<string>

    ghost function View(): Meter
      reads this
    {
      Meter(usage, dataChunks, estOutput, softCapExceeded)
    }

    constructor (hold: int)
      ensures this.hold == hold && View() == IDLE && body == "" && writes == []
    {
      this.hold := hold;
      usage, body, dataChunks, estOutput, softCapExceeded, writes := None, "", 0, 0, false, [];
    }

    method ParseLine(line: string, json: string -> Chunk)
      modifies this`usage, this`dataChunks, this`estOutput, this`softCapExceeded
      ensures View() == match Data(line) {
                          case None => old(View())
                          case Some(d) => Add(old(View()), hold, json, d)
                        }
    {
      var s := Trim(line);
      if !(DATA_PREFIX <= s) {
        return;
      }
      var data := s[|DATA_PREFIX|..];
      if data == DONE {
        return;
      }
      dataChunks := dataChunks + 1;
      estOutput := estOutput + |data| / 4;
      if hold > 0 && estOutput * 900 > hold {
        softCapExceeded := true;
      }
      match json(data)
      case HasUsage(u) => usage := Some(u);
      case _ =>
    }

    method FinalizeUsage()
      modifies this`usage
      ensures usage == Finalized(old(View()))
    {
      if usage.Some? {
        return;
      }
      if dataChunks > 0 {
        usage := Some(Fallback(estOutput));
      }
    }

    /** One line to the body buffer, the client and the meter. */
    method Forward(line: string, json: string -> Chunk)
      requires line != KEEPALIVE
      modifies this
      ensures body == old(body) + line
      ensures WithoutKeepalives(writes) == WithoutKeepalives(old(writes)) + [line] && |writes| == |old(writes)| + 1
      ensures View() == match Data(line) {
                          case None => old(View())
                          case Some(d) => Add(old(View()), hold, json, d)
                        }
    {
      body := body + line;
      assert (writes + [line])[..|writes|] == writes;
      writes := writes + [line];
      ParseLine(line, json);
    }

    method KeepAlive()
      modifies this`writes
      ensures WithoutKeepalives(writes) == WithoutKeepalives(old(writes)) && |writes| == |old(writes)| + 1
    {
      assert (writes + [KEEPALIVE])[..|writes|] == writes;
      writes := writes + [KEEPALIVE];
    }

    /** Copies whole lines of `src` to the client until it ends, fails, is cancelled or the soft cap trips.
        `n` is the number of lines copied; `failing` says whether the source ends in an error. */
    method Copy(src: string, failing: bool, ticks: nat -> Tick, json: string -> Chunk)
      returns (total: int, ending: Ending, ghost n: nat)
      requires View() == IDLE && body == "" && writes == []
      modifies this
      ensures n <= |Lines(src)| && body == Join(Lines(src)[..n]) && total == |body|
      ensures WithoutKeepalives(writes) == Lines(src)[..n]
      ensures var m := MeterLines(hold, json, Lines(src)[..n]);
              View() == m.(usage := Finalized(m))
      ensures forall k | 0 <= k < n :: !MeterLines(hold, json, Lines(src)[..k]).capped
      ensures ending == CapHit <==> MeterLines(hold, json, Lines(src)[..n]).capped
      ensures ending == Finished || ending == SourceFailed ==> n == |Lines(src)| && (ending == SourceFailed <==> failing)
      ensures var d := Payloads(Lines(src)[..n]);
              View() == Meter(ReportedUsage(json, d), |d|, Quarters(d), hold > 0 && 900 * Quarters(d) > hold)
      ensures forall k | 0 <= k < n :: !ticks(k).cancelled && !ticks(k).late
      ensures ending == Cancelled ==> Reached(Lines(src), n) && ticks(n).cancelled
      ensures ending == TimedOut ==> Reached(Lines(src), n) && !ticks(n).cancelled && ticks(n).late
      ensures (ending == Finished || ending == SourceFailed) && Reached(Lines(src), n) ==> !ticks(n).cancelled && !ticks(n).late
      ensures |writes| == n + IdleTurns(ticks, if ending != CapHit && Reached(Lines(src), n) then n else n - 1)
    {
      ghost var lines := Lines(src);
      EmptyStart(hold, json, lines);
      NoIdleTurns(ticks);
      hide Lines, Join, MeterLines, WithoutKeepalives, Data, Add, NewlineAt, Finalized, Payloads, Quarters, ReportedUsage,
           Ends, IdleTurns, LineLength;
      total := 0;
      n := 0;
      var rest := src;
      var turn := 0;
      while true
        invariant n <= |lines| && Lines(rest) == lines[n..]
        invariant body == Join(lines[..n]) && total == |body|
        invariant WithoutKeepalives(writes) == lines[..n]
        invariant View() == MeterLines(hold, json, lines[..n])
        invariant turn == n && Reached(lines, n) && |writes| == n + IdleTurns(ticks, n)
        invariant forall k | 0 <= k < n :: !ticks(k).cancelled && !ticks(k).late
        invariant forall k | 0 <= k <= n :: !MeterLines(hold, json, lines[..k]).capped
        decreases |rest|
      {
        var tick := ticks(turn);
        turn := turn + 1;
        if tick.cancelled {
          FinalizeUsage();
          LeftLaw(hold, json, lines[..n]);
          return total, Cancelled, n;
        }
        if tick.late {
          FinalizeUsage();
          LeftLaw(hold, json, lines[..n]);
          return total, TimedOut, n;
        }
        var line := rest[..LineLength(rest)];
        var atEnd := NewlineAt(rest) == |rest|;
        LineEnds(rest);
        IdleStep(ticks, n);
        if |line| > 0 {
          LineIsNotKeepalive(rest);
          OneLineOn(hold, json, rest, lines, n);
          total := total + |line|;
          rest := rest[|line|..];
          Forward(line, json);
          n := n + 1;
        }
        NothingLeft(rest);
        if softCapExceeded {
          FinalizeUsage();
          LeftLaw(hold, json, lines[..n]);
          return total, CapHit, n;
        }
        if atEnd {
          FinalizeUsage();
          LeftLaw(hold, json, lines[..n]);
          ending := if failing then SourceFailed else Finished;
          return total, ending, n;
        }
        if tick.idle {
          KeepAlive();
        }
      }
    }
  }

  lemma NoIdleTurns(ticks: nat -> Tick)
    ensures IdleTurns(ticks, 0) == 0
  {
  }

  lemma EmptyStart(hold: int, json: string -> Chunk, lines: seq<string>)
    ensures Join(lines[..0]) == "" && WithoutKeepalives([]) == lines[..0] && MeterLines(hold, json, lines[..0]) == IDLE
  {
  }

  lemma NothingLeft(s: string)
    ensures s == "" <==> Lines(s) == []
  {
  }

  /** Reading one line of what is left moves one element along the lines of the source. */
  lemma OneLineOn(hold: int, json: string -> Chunk, rest: string, lines: seq<string>, n: nat)
    requires rest != "" && n <= |lines| && Lines(rest) == lines[n..]
    ensures var line := rest[..LineLength(rest)];
            && n < |lines| && line == lines[n]
            && Lines(rest[|line|..]) == lines[n + 1..]
            && lines[..n + 1] == lines[..n] + [line]
            && Join(lines[..n + 1]) == Join(lines[..n]) + line
            && MeterLines(hold, json, lines[..n + 1])
               == match Data(line) {
                    case None => MeterLines(hold, json, lines[..n])
                    case Some(d) => Add(MeterLines(hold, json, lines[..n]), hold, json, d)
                  }
  {
    hide Data, Add, MeterLines;
    var line := rest[..LineLength(rest)];
    assert lines[n..][0] == line;
    assert lines[n..][1..] == lines[n + 1..];
    assert lines[..n + 1] == lines[..n] + [line];
    assert (lines[..n] + [line])[..n] == lines[..n];
    MeterSnoc(hold, json, lines[..n], line);
  }
}
