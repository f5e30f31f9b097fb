/** Capture and replay of request bodies (`captureBody`, `bodyReplay`).

The first attempt streams the caller's body and keeps a copy of what it reads, in memory up to one mebibyte and then
in a temporary file, out of a budget shared by all requests. A retry sends the copy. `consumed` is a history variable:
every byte read so far. The outcomes of file operations are parameters.
 */
module Replay {
  import opened Base
  import opened Budget

  newtype Byte = b: int | 0 <= b < 256

  const MEMORY_LIMIT: int := 0x10_0000

  /** `file` is the open handle, `disk` the content of the temporary file that `fileName` names. */
  datatype Capture = Capture(
    limit: int, contentLength: int, read: int, reserved: int,
    complete: bool, overflow: bool, sealed: bool,
    buffer: seq<Byte>, open: bool, disk: Option<seq<Byte>>,
    consumed: seq<Byte>)

  /** Whether creating the file, moving the buffer into it and appending to it would succeed. */
  datatype FileResult = FileResult(create: bool, flush: bool, write: bool)

  /** A capture together with the shared budget's counter. */
  datatype Held = Held(c: Capture, used: int)

  // ----- captureBody -----

  function Discard(h: Held): Held {
    Held(h.c.(overflow := true, buffer := [], open := false, disk := None, reserved := 0),
         Released(h.used, h.c.reserved))
  }

  function Keep(h: Held, data: seq<Byte>, f: FileResult): Held {
    var c := h.c;
    if !c.open && |c.buffer| + |data| <= Min(c.limit, MEMORY_LIMIT) then
      h.(c := c.(buffer := c.buffer + data))
    else if !c.open then
      if f.create && f.flush && f.write then
        h.(c := c.(open := true, disk := Some(c.buffer + data), buffer := []))
      else
        Discard(h)
    else if f.write && c.disk.Some? then
      h.(c := c.(disk := Some(c.disk.value + data)))
    else
      Discard(h)
  }

  function Recorded(h: Held, data: seq<Byte>, budget: int, f: FileResult): Held {
    var c := h.c;
    var additional := c.read - c.reserved;
    if c.overflow || c.sealed then
      h
    else if c.read > c.limit || (additional > 0 && !Fits(h.used, budget, additional)) then
      Discard(h)
    else if additional > 0 then
      Keep(Held(c.(reserved := c.reserved + additional), Reserved(h.used, budget, additional)), data, f)
    else
      Keep(h, data, f)
  }

  /** One `Read`: the underlying body delivered `data` and possibly reported its end. */
  function AfterRead(h: Held, data: seq<Byte>, eof: bool, budget: int, f: FileResult): Held {
    var c := h.c.(read := h.c.read + |data|, consumed := h.c.consumed + data);
    var n := if data == [] then h.(c := c) else Recorded(h.(c := c), data, budget, f);
    var ended := eof || (n.c.contentLength >= 0 && n.c.read == n.c.contentLength);
    n.(c := n.c.(complete := n.c.complete || ended))
  }

  lemma ReadParts(h: Held, data: seq<Byte>, eof: bool, budget: int, f: FileResult, n: Held)
    requires var c := h.c.(read := h.c.read + |data|, consumed := h.c.consumed + data);
             n == if |data| > 0 then Recorded(h.(c := c), data, budget, f) else h.(c := c)
    ensures eof || (n.c.contentLength >= 0 && n.c.read == n.c.contentLength) ==>
              AfterRead(h, data, eof, budget, f) == n.(c := n.c.(complete := true))
    ensures !(eof || (n.c.contentLength >= 0 && n.c.read == n.c.contentLength)) ==>
              AfterRead(h, data, eof, budget, f) == n
  {
    hide Recorded;
  }

  datatype Copy = Copy(data: seq<Byte>, file: bool) | NotReady | CloseFailed

  function Seal(c: Capture, closes: bool): (Capture, Copy) {
    if !c.complete || c.overflow then
      (c, NotReady)
    else if !c.open then
      (c.(sealed := true, buffer := []), Copy(c.buffer, false))
    else if closes then
      (c.(sealed := true, open := false), Copy([], true))
    else
      (c.(sealed := true, open := false), CloseFailed)
  }

  // ----- bodyReplay -----

  /** `GetBody` is a body that the caller can produce again. */
  datatype Source = NoBody | GetBody | Streamed

  datatype Replayer = Replayer(
    source: Source, body: seq<Byte>, capture: Capture,
    data: seq<Byte>, file: bool, prepared: bool, failed: bool, closed: bool)

  datatype Pair = Pair(r: Replayer, used: int)

  function NoCapture(limit: int): Capture {
    Capture(limit, -1, 0, 0, false, true, false, [], false, None, [])
  }

  /** `newBodyReplay`; `None` is its budget error. */
  function Open(source: Source, body: seq<Byte>, limit: int, declared: int, budget: int, used: int): Option<Pair> {
    var length := if declared == 0 then -1 else declared;
    var c := NoCapture(limit).(contentLength := length);
    var r := Replayer(source, body, c, [], false, false, false, false);
    if source != Streamed || length > limit || budget == 0 then
      Some(Pair(r, used))
    else if length > 0 then
      if Fits(used, budget, length) then
        Some(Pair(r.(capture := c.(overflow := false, reserved := length)), Reserved(used, budget, length)))
      else
        None
    else
      Some(Pair(r.(capture := c.(overflow := false)), used))
  }

  datatype Readiness = Ready | Unable | Error

  /** `prepareRetry`. `failed` remembers that it reported an error. */
  function Prepare(r: Replayer, closes: bool): (Replayer, Readiness) {
    if r.source != Streamed then
      (r.(prepared := true), Ready)
    else if r.prepared then
      (r, Ready)
    else
      var (c, copy) := Seal(r.capture, closes);
      match copy
      case Copy(data, file) => (r.(capture := c, data := data, file := file, prepared := true), Ready)
      case NotReady => (r.(capture := c), Unable)
      case CloseFailed => (r.(capture := c, failed := true), Error)
  }

  datatype Sent = First | Nothing | Bytes(bytes: seq<Byte>) | BodyError

  /** What `body` sends once it is prepared. `opens` tells whether reopening the file or `GetBody` succeeds. */
  function Again(r: Replayer, opens: bool): Sent {
    match r.source
    case NoBody => Nothing
    case GetBody => if opens then Bytes(r.body) else BodyError
    case Streamed =>
      if r.file then
        if opens && r.capture.disk.Some? then Bytes(r.capture.disk.value) else BodyError
      else
        Bytes(r.data)
  }

  /** `body`: the first attempt streams, later ones prepare if need be and send the copy. */
  function Body(r: Replayer, attempt: nat, closes: bool, opens: bool): (Replayer, Sent) {
    if attempt == 0 then
      (r, First)
    else if r.source != Streamed || r.prepared then
      (r, Again(r, opens))
    else
      var (p, readiness) := Prepare(r, closes);
      (p, if readiness.Ready? then Again(p, opens) else BodyError)
  }

  function Close(p: Pair): Pair {
    if p.r.source != Streamed then
      p.(r := p.r.(closed := true))
    else
      var h := Discard(Held(p.r.capture, p.used));
      Pair(p.r.(capture := h.c, file := false, closed := true), h.used)
  }

  // ----- invariant of one capture -----

  function Stored(c: Capture): seq<Byte> {
    if c.disk.Some? then c.disk.value else c.buffer
  }

  ghost predicate CaptureOk(c: Capture) {
    && c.read == |c.consumed| && 0 <= c.reserved <= Max(c.limit, 0)
    && |c.buffer| <= Max(Min(c.limit, MEMORY_LIMIT), 0)
    && (c.overflow ==> c.buffer == [] && !c.open && c.disk.None? && c.reserved == 0)
    && (c.sealed && !c.overflow ==> c.complete && !c.open && c.buffer == [])
    && (!c.overflow && !c.sealed ==>
          && Stored(c) == c.consumed && (c.consumed != [] ==> c.read <= c.reserved)
          && (c.open <==> c.disk.Some?) && (c.open ==> c.buffer == [] && c.consumed != []))
  }

  predicate SameStream(c: Capture, d: Capture) {
    && c.limit == d.limit && c.contentLength == d.contentLength && c.read == d.read && c.consumed == d.consumed
    && c.complete == d.complete && c.sealed == d.sealed
  }

  lemma DiscardOk(h: Held)
    requires h.c.read == |h.c.consumed|
    ensures CaptureOk(Discard(h).c) && Discard(h).c.overflow && SameStream(h.c, Discard(h).c)
    ensures h.c.reserved >= 0 ==> Discard(h).used - Discard(h).c.reserved == h.used - h.c.reserved
    ensures h.c.reserved >= 0 ==> Discard(h).used <= h.used
  {
  }

  /** What `Keep` needs of the capture: the bytes before `data` are stored and the reservation covers all. */
  ghost predicate Keeping(c: Capture, data: seq<Byte>) {
    && c.read == |c.consumed| && 0 < c.read <= c.reserved <= c.limit
    && |c.buffer| <= Min(c.limit, MEMORY_LIMIT)
    && !c.overflow && !c.sealed
    && Stored(c) + data == c.consumed && data != []
    && (c.open <==> c.disk.Some?) && (c.open ==> c.buffer == [])
  }

  lemma KeepOk(h: Held, data: seq<Byte>, f: FileResult)
    requires Keeping(h.c, data)
    ensures CaptureOk(Keep(h, data, f).c) && SameStream(h.c, Keep(h, data, f).c)
    ensures Keep(h, data, f).used <= h.used
    ensures Keep(h, data, f).used - Keep(h, data, f).c.reserved == h.used - h.c.reserved
    ensures !Keep(h, data, f).c.overflow <==>
              if h.c.open then f.write
              else |h.c.consumed| <= Min(h.c.limit, MEMORY_LIMIT) || (f.create && f.flush && f.write)
  {
    DiscardOk(h);
  }

  /** The conditions under which a chunk is added to the copy. */
  predicate Room(h: Held, data: seq<Byte>, budget: int, f: FileResult) {
    var size := h.c.read + |data|;
    && size <= h.c.limit
    && (size <= h.c.reserved || Fits(h.used, budget, size - h.c.reserved))
    && (if h.c.open then f.write else size <= Min(h.c.limit, MEMORY_LIMIT) || (f.create && f.flush && f.write))
  }

  lemma RecordedOk(h: Held, data: seq<Byte>, budget: int, f: FileResult, before: Capture)
    requires CaptureOk(before) && data != []
    requires h.c == before.(read := before.read + |data|, consumed := before.consumed + data)
    ensures var n := Recorded(h, data, budget, f);
            && CaptureOk(n.c) && SameStream(h.c, n.c)
            && n.used - n.c.reserved == h.used - before.reserved
            && (h.used <= budget ==> n.used <= budget)
            && (!before.overflow && !before.sealed ==>
                  (!n.c.overflow <==> Room(h.(c := before), data, budget, f)))
            && (before.overflow || before.sealed ==> n == h)
  {
    hide Keep, Discard;
    var c := h.c;
    if !c.overflow && !c.sealed {
      DiscardOk(h);
      var additional := c.read - c.reserved;
      if c.read <= c.limit && (additional <= 0 || Fits(h.used, budget, additional)) {
        if additional > 0 {
          KeepOk(Held(c.(reserved := c.reserved + additional), Reserved(h.used, budget, additional)), data, f);
        } else {
          KeepOk(h, data, f);
        }
      }
    }
  }

  /** Reading keeps the capture sound, moves the budget by the change of the reservation, and gives the copy up
      exactly when there is no room. */
  lemma ReadOk(h: Held, data: seq<Byte>, eof: bool, budget: int, f: FileResult)
    requires CaptureOk(h.c)
    ensures var n := AfterRead(h, data, eof, budget, f);
            && CaptureOk(n.c)
            && n.c.consumed == h.c.consumed + data && n.c.sealed == h.c.sealed && n.c.contentLength == h.c.contentLength
            && n.used - n.c.reserved == h.used - h.c.reserved
            && (h.used <= budget ==> n.used <= budget)
            && (!h.c.overflow && !h.c.sealed ==> (!n.c.overflow <==> data == [] || Room(h, data, budget, f)))
            && (h.c.overflow ==> n.c.overflow)
            && (h.c.sealed ==> n.c.overflow == h.c.overflow && n.c.disk == h.c.disk)
  {
    hide Recorded, Room;
    if data != [] {
      var c := h.c.(read := h.c.read + |data|, consumed := h.c.consumed + data);
      RecordedOk(h.(c := c), data, budget, f, h.c);
    }
  }

  // ----- invariant of one replayer -----

  /** `body` is what the underlying reader delivers in the end. A declared length is exact, as `net/http` promises. */
  ghost predicate ReplayerOk(r: Replayer) {
    var c := r.capture;
    && CaptureOk(c)
    && (r.closed || r.source != Streamed ==> c.overflow)
    && (r.source == Streamed ==>
          && c.consumed <= r.body && (c.complete ==> c.consumed == r.body)
          && (c.contentLength >= 0 ==> |r.body| == c.contentLength)
          && (r.failed ==> r.body != [])
          && (!r.closed ==>
                && (r.prepared && !r.failed ==> c.sealed && !c.overflow &&
                                                (if r.file then c.disk == Some(r.body) else r.data == r.body))
                && (r.prepared && r.failed ==> !r.file && r.data == [])
                && (r.failed ==> c.sealed && !c.overflow && !c.open && c.buffer == [])
                && (c.sealed && !c.overflow && !r.prepared ==> r.failed)
                && (c.sealed && !c.overflow ==> r.body == [] || |r.body| <= c.reserved)
                && (c.sealed && !c.overflow && c.disk.Some? ==> c.disk.value == r.body)
                && (r.prepared && !r.file ==> |r.data| <= Max(Min(c.limit, MEMORY_LIMIT), 0))
                && (r.prepared ==> c.sealed && !c.overflow)
                && (!r.prepared || c.disk.Some? ==> r.data == [])))
  }

  datatype Call =
    | ReadCall(data: seq<Byte>, eof: bool, f: FileResult)
    | PrepareCall(closes: bool)
    | BodyCall(attempt: nat, closes: bool, opens: bool)
    | CloseCall

  /** Reads come whenever the transport likes; the scheduler asks for copies until it closes the replayer. */
  ghost predicate Legal(r: Replayer, call: Call) {
    match call
    case ReadCall(data, eof, _) =>
      r.source == Streamed && r.capture.consumed + data <= r.body && (eof ==> r.capture.consumed + data == r.body)
    case PrepareCall(_) => !r.closed
    case BodyCall(_, _, _) => !r.closed
    case CloseCall => true
  }

  function Do(p: Pair, call: Call, budget: int): Pair {
    match call
    case ReadCall(data, eof, f) =>
      var h := AfterRead(Held(p.r.capture, p.used), data, eof, budget, f);
      Pair(p.r.(capture := h.c), h.used)
    case PrepareCall(closes) => p.(r := Prepare(p.r, closes).0)
    case BodyCall(attempt, closes, opens) => p.(r := Body(p.r, attempt, closes, opens).0)
    case CloseCall => Close(p)
  }

  lemma OpenOk(source: Source, body: seq<Byte>, limit: int, declared: int, budget: int, used: int)
    requires declared > 0 ==> |body| == declared
    ensures var o := Open(source, body, limit, declared, budget, used);
            o.Some? ==>
              && ReplayerOk(o.value.r) && !o.value.r.closed
              && o.value.used - o.value.r.capture.reserved == used && (used <= budget ==> o.value.used <= budget)
  {
  }

  lemma PrepareOk(r: Replayer, closes: bool)
    requires ReplayerOk(r) && !r.closed
    ensures ReplayerOk(Prepare(r, closes).0)
    ensures Prepare(r, closes).0.capture.reserved == r.capture.reserved
    ensures r.source == Streamed && Prepare(r, closes).1.Ready? ==> Prepare(r, closes).0.prepared
  {
  }

  lemma ReadCallOk(p: Pair, data: seq<Byte>, eof: bool, f: FileResult, budget: int)
    requires ReplayerOk(p.r) && Legal(p.r, ReadCall(data, eof, f))
    ensures var n := Do(p, ReadCall(data, eof, f), budget);
            && ReplayerOk(n.r) && n.r.closed == p.r.closed
            && n.used - n.r.capture.reserved == p.used - p.r.capture.reserved
            && (p.used <= budget ==> n.used <= budget)
  {
    var h := Held(p.r.capture, p.used);
    ReadOk(h, data, eof, budget, f);
    ReadEnds(h, data, eof, budget, f);
  }

  lemma ReadEnds(h: Held, data: seq<Byte>, eof: bool, budget: int, f: FileResult)
    requires CaptureOk(h.c)
    ensures var c := AfterRead(h, data, eof, budget, f).c;
            c.complete ==> h.c.complete || eof || (c.contentLength >= 0 && |c.consumed| == c.contentLength)
    ensures h.c.complete ==> AfterRead(h, data, eof, budget, f).c.complete
  {
    hide Recorded, Room;
    if data != [] {
      var c := h.c.(read := h.c.read + |data|, consumed := h.c.consumed + data);
      RecordedOk(h.(c := c), data, budget, f, h.c);
    }
  }

  /** Every call keeps the replayer sound and moves the budget by the change of the reservation. */
  lemma CallOk(p: Pair, call: Call, budget: int)
    requires ReplayerOk(p.r) && Legal(p.r, call)
    ensures ReplayerOk(Do(p, call, budget).r)
    ensures Do(p, call, budget).used - Do(p, call, budget).r.capture.reserved == p.used - p.r.capture.reserved
    ensures p.used <= budget ==> Do(p, call, budget).used <= budget
    ensures p.r.closed ==> Do(p, call, budget).r.closed
  {
    match call
    case ReadCall(data, eof, f) => ReadCallOk(p, data, eof, f, budget);
    case PrepareCall(closes) => PrepareOk(p.r, closes);
    case BodyCall(attempt, closes, opens) => PrepareOk(p.r, closes);
    case CloseCall => DiscardOk(Held(p.r.capture, p.used));
  }

  /** A retry sends the body, byte for byte, if and only if no earlier preparation reported an error. */
  lemma RetryBody(r: Replayer, attempt: nat, closes: bool, opens: bool)
    requires ReplayerOk(r) && !r.closed && attempt > 0
    ensures var sent := Body(r, attempt, closes, opens).1;
            sent.Bytes? && r.source == Streamed ==> (sent.bytes == r.body <==> !r.failed)
    ensures r.source == NoBody ==> Body(r, attempt, closes, opens).1 == Nothing
    ensures r.source == GetBody && opens ==> Body(r, attempt, closes, opens).1 == Bytes(r.body)
  {
    PrepareOk(r, closes);
  }

  /** A streamed body can be sent again if and only if it was read to its end, its copy was not given up and the
      temporary file, if there is one, closes. */
  lemma PrepareReady(r: Replayer, closes: bool)
    requires ReplayerOk(r) && !r.closed && r.source == Streamed && !r.prepared && !r.failed
    ensures Prepare(r, closes).1.Ready? <==>
              r.capture.complete && !r.capture.overflow && (r.capture.disk.Some? ==> closes)
  {
  }

  /** `newBodyReplay` refuses a body exactly when it is streamed, its declared length is within the limit of one
      request, and the shared budget has no room for it; otherwise it reserves the declared length or nothing. */
  lemma OpenIff(source: Source, body: seq<Byte>, limit: int, declared: int, budget: int, used: int)
    ensures var o := Open(source, body, limit, declared, budget, used);
            && (o.None? <==> source == Streamed && 0 < declared <= limit && budget != 0 && used + declared > budget)
            && (o.Some? ==> o.value.used == used + o.value.r.capture.reserved)
            && (o.Some? ==> o.value.r.capture.reserved
                            == if source == Streamed && 0 < declared <= limit && budget != 0 then declared else 0)
            && (o.Some? && limit >= 0 ==>
                  (!o.value.r.capture.overflow <==> source == Streamed && declared <= limit && budget != 0))
  {
  }

  /** A streamed body that is ready is sent again as often as need be, unless its file cannot be reopened. */
  lemma ReadyIsSent(r: Replayer, attempt: nat, closes: bool, opens: bool)
    requires ReplayerOk(r) && !r.closed && attempt > 0 && r.source == Streamed && r.prepared && !r.failed
    ensures Body(r, attempt, closes, opens).0 == r
    ensures Body(r, attempt, closes, opens).1 == if r.file && !opens then BodyError else Bytes(r.body)
  {
  }

  /** A streamed body that is not ready yet is sent again exactly when it can be made ready and its file, if there is
      one, can be reopened. */
  lemma SentAgainIff(r: Replayer, attempt: nat, closes: bool, opens: bool)
    requires ReplayerOk(r) && !r.closed && attempt > 0 && r.source == Streamed && !r.prepared && !r.failed
    ensures Body(r, attempt, closes, opens).1 == Bytes(r.body) <==>
              r.capture.complete && !r.capture.overflow && (r.capture.disk.Some? ==> closes && opens)
    ensures Body(r, attempt, closes, opens).1 != Bytes(r.body) ==> Body(r, attempt, closes, opens).1 == BodyError
  {
    PrepareOk(r, closes);
    PrepareReady(r, closes);
  }

  /** A second close gives nothing back and changes nothing. */
  lemma CloseTwice(p: Pair)
    ensures Close(Close(p)) == Close(p)
  {
  }

  // ----- all requests together -----

  datatype System = System(budget: int, used: int, all: seq<Replayer>)

  datatype Event = New(source: Source, body: seq<Byte>, limit: int, declared: int) | On(i: nat, call: Call)

  ghost predicate Possible(s: System, e: Event) {
    match e
    case New(_, body, _, declared) => declared > 0 ==> |body| == declared
    case On(i, call) => i < |s.all| && Legal(s.all[i], call)
  }

  function Next(s: System, e: Event): System
    requires e.On? ==> e.i < |s.all|
  {
    match e
    case New(source, body, limit, declared) =>
      var o := Open(source, body, limit, declared, s.budget, s.used);
      if o.None? then s else System(s.budget, o.value.used, s.all + [o.value.r])
    case On(i, call) =>
      var n := Do(Pair(s.all[i], s.used), call, s.budget);
      System(s.budget, n.used, s.all[i := n.r])
  }

  function Reservations(all: seq<Replayer>): int {
    if all == [] then 0 else Reservations(all[..|all| - 1]) + all[|all| - 1].capture.reserved
  }

  lemma {:induction false} ReservationsUpdate(all: seq<Replayer>, i: nat, r: Replayer)
    requires i < |all|
    ensures Reservations(all[i := r]) == Reservations(all) - all[i].capture.reserved + r.capture.reserved
  {
    var n := |all| - 1;
    if i == n {
      assert all[i := r][..n] == all[..n];
    } else {
      ReservationsUpdate(all[..n], i, r);
      assert all[i := r][..n] == all[..n][i := r];
    }
  }

  lemma {:induction false} ReservationsClosed(all: seq<Replayer>)
    requires forall i :: 0 <= i < |all| ==> ReplayerOk(all[i]) && all[i].closed
    ensures Reservations(all) == 0
  {
    if all != [] {
      ReservationsClosed(all[..|all| - 1]);
    }
  }

  ghost predicate Inv(s: System) {
    && (forall i :: 0 <= i < |s.all| ==> ReplayerOk(s.all[i]))
    && s.used == Reservations(s.all) && s.used <= s.budget
  }

  lemma NextOk(s: System, e: Event)
    requires Inv(s) && Possible(s, e)
    ensures Inv(Next(s, e))
  {
    hide ReplayerOk, Legal, Do, Open;
    match e
    case New(source, body, limit, declared) =>
      OpenOk(source, body, limit, declared, s.budget, s.used);
      var o := Open(source, body, limit, declared, s.budget, s.used);
      if o.Some? {
        assert (s.all + [o.value.r])[..|s.all|] == s.all;
      }
    case On(i, call) =>
      CallOk(Pair(s.all[i], s.used), call, s.budget);
      ReservationsUpdate(s.all, i, Do(Pair(s.all[i], s.used), call, s.budget).r);
  }

  ghost predicate IsRun(budget: nat, states: seq<System>, events: seq<Event>) {
    && |states| == |events| + 1 && states[0] == System(budget, 0, [])
    && forall k :: 0 <= k < |events| ==> Possible(states[k], events[k]) && states[k + 1] == Next(states[k], events[k])
  }

  lemma {:induction false} Always(budget: nat, states: seq<System>, events: seq<Event>, k: nat)
    requires IsRun(budget, states, events) && k < |states|
    ensures Inv(states[k]) && states[k].budget == budget
  {
    if k > 0 {
      Always(budget, states, events, k - 1);
      NextOk(states[k - 1], events[k - 1]);
    }
  }

  /** What a request holds of its body, in memory and on disk: the copy being made and, once it is sealed, the copy that
      retries send. */
  function InMemory(r: Replayer): nat {
    |r.capture.buffer| + |r.data|
  }

  function OnDisk(r: Replayer): nat {
    if r.capture.disk.Some? then |r.capture.disk.value| else 0
  }

  /** Until it is closed, a request holds no more memory than the memory limit and no more of its body than it has
      reserved of the budget, which is within its own limit. */
  lemma HeldIsReserved(r: Replayer)
    requires ReplayerOk(r) && !r.closed && r.source == Streamed
    ensures InMemory(r) <= Max(Min(r.capture.limit, MEMORY_LIMIT), 0)
    ensures InMemory(r) + OnDisk(r) <= r.capture.reserved <= Max(r.capture.limit, 0)
  {
  }

  /** In every run the memory and disk that captures and copies hold stay inside the shared budget, no request exceeds
      its own limit or the memory limit, and once every request is closed the whole budget is free again. */
  lemma CaptureBudgetAlways(budget: nat, states: seq<System>, events: seq<Event>, k: nat)
    requires IsRun(budget, states, events) && k < |states|
    ensures states[k].used == Reservations(states[k].all) && states[k].used <= budget
    ensures forall i :: 0 <= i < |states[k].all| && states[k].all[i].source == Streamed && !states[k].all[i].closed ==>
                          var r := states[k].all[i];
                          && InMemory(r) <= Max(Min(r.capture.limit, MEMORY_LIMIT), 0)
                          && InMemory(r) + OnDisk(r) <= r.capture.reserved <= Max(r.capture.limit, 0)
    ensures (forall i :: 0 <= i < |states[k].all| ==> states[k].all[i].closed) ==> states[k].used == 0
  {
    hide InMemory, OnDisk;
    Always(budget, states, events, k);
    forall i | 0 <= i < |states[k].all| && states[k].all[i].source == Streamed && !states[k].all[i].closed
      ensures var r := states[k].all[i];
              && InMemory(r) <= Max(Min(r.capture.limit, MEMORY_LIMIT), 0)
              && InMemory(r) + OnDisk(r) <= r.capture.reserved <= Max(r.capture.limit, 0)
    {
      HeldIsReserved(states[k].all[i]);
    }
    if forall i :: 0 <= i < |states[k].all| ==> states[k].all[i].closed {
      ReservationsClosed(states[k].all);
    }
  }

  /** In every run, a retry of a streamed body sends that body if and only if no earlier preparation failed. */
  lemma RetriesExactAlways(budget: nat, states: seq<System>, events: seq<Event>, k: nat)
    requires IsRun(budget, states, events) && k < |events|
    requires events[k].On? && events[k].call.BodyCall? && events[k].call.attempt > 0
    ensures var r := states[k].all[events[k].i];
            var call := events[k].call;
            var sent := Body(r, call.attempt, call.closes, call.opens).1;
            r.source == Streamed && sent.Bytes? ==> (sent.bytes == r.body <==> !r.failed)
  {
    Always(budget, states, events, k);
    var call := events[k].call;
    RetryBody(states[k].all[events[k].i], call.attempt, call.closes, call.opens);
  }

  // ----- the scheduler's discipline -----

  /** The call reports an error to the scheduler. */
  predicate Reports(r: Replayer, call: Call) {
    match call
    case PrepareCall(closes) => Prepare(r, closes).1.Error?
    case BodyCall(attempt, closes, opens) => Body(r, attempt, closes, opens).1.BodyError?
    case _ => false
  }

  /** The event asks this replayer for something and is told of an error. */
  predicate ReportsTo(s: System, e: Event, i: nat) {
    e.On? && e.i == i < |s.all| && Reports(s.all[i], e.call)
  }

  /** Once a replayer has reported an error, the scheduler asks it for nothing more. */
  ghost predicate Obedient(states: seq<System>, events: seq<Event>) {
    |states| == |events| + 1 &&
    forall j, k :: 0 <= j < k < |events| && events[k].On? && ReportsTo(states[j], events[j], events[k].i) ==>
                     events[k].call.ReadCall? || events[k].call.CloseCall?
  }

  /** A preparation fails in no other way than by reporting it. */
  lemma FailureIsReported(p: Pair, call: Call, budget: int)
    requires !p.r.failed && Do(p, call, budget).r.failed
    ensures Reports(p.r, call)
  {
  }

  lemma {:induction false} FailedWasReported(budget: nat, states: seq<System>, events: seq<Event>, k: nat, i: nat)
    returns (j: nat)
    requires IsRun(budget, states, events) && k < |states| && i < |states[k].all| && states[k].all[i].failed
    ensures j < k && ReportsTo(states[j], events[j], i)
    decreases k
  {
    hide Do, Open, Reports, Legal;
    var s, e := states[k - 1], events[k - 1];
    assert states[k] == Next(s, e);
    if i < |s.all| && s.all[i].failed {
      j := FailedWasReported(budget, states, events, k - 1, i);
    } else if i < |s.all| {
      j := k - 1;
      FailureIsReported(Pair(s.all[i], s.used), e.call, s.budget);
    } else {
      NewIsFine(e.source, e.body, e.limit, e.declared, s.budget, s.used);
    }
  }

  lemma NewIsFine(source: Source, body: seq<Byte>, limit: int, declared: int, budget: int, used: int)
    ensures var o := Open(source, body, limit, declared, budget, used); o.Some? ==> !o.value.r.failed
  {
  }

  /** In every run of a scheduler that asks for nothing more once it has been told of an error, every retry of a
      streamed body that is sent at all sends exactly that body. */
  lemma ObedientRetriesAreExact(budget: nat, states: seq<System>, events: seq<Event>, k: nat)
    requires IsRun(budget, states, events) && Obedient(states, events) && k < |events|
    requires events[k].On? && events[k].call.BodyCall? && events[k].call.attempt > 0
    ensures var r := states[k].all[events[k].i];
            var call := events[k].call;
            var sent := Body(r, call.attempt, call.closes, call.opens).1;
            r.source == Streamed && sent.Bytes? ==> sent.bytes == r.body
  {
    hide Body, Reports;
    RetriesExactAlways(budget, states, events, k);
    if states[k].all[events[k].i].failed {
      var j := FailedWasReported(budget, states, events, k, events[k].i);
      assert false;
    }
  }

  /** Asked again after a failed close, a replayer hands out an empty body as if it were complete. This can happen to
      every body that outgrows memory and fits its limit and the budget. */
  lemma FailedCloseLosesBody(budget: nat, body: seq<Byte>, limit: int)
    returns (states: seq<System>, events: seq<Event>)
    requires MEMORY_LIMIT < |body| <= limit && |body| <= budget
    ensures IsRun(budget, states, events) && |events| == 3 && |states[3].all| == 1
    ensures states[3].all[0].source == Streamed && states[3].all[0].body == body
    ensures Body(states[3].all[0], 1, true, true).1 == Bytes([])
  {
    events := [New(Streamed, body, limit, -1), On(0, ReadCall(body, true, FileResult(true, true, true))),
                   On(0, PrepareCall(false))];
    var s0 := System(budget, 0, []);
    var s1 := Next(s0, events[0]);
    assert |s1.all| == 1;
    var s2 := Next(s1, events[1]);
    assert s2.all[0].capture.complete && s2.all[0].capture.open && !s2.all[0].capture.overflow;
    var s3 := Next(s2, events[2]);
    assert s3.all[0].failed;
    states := [s0, s1, s2, s3];
  }

  // ----- the object -----

  /** `captureBody`, with the methods' file operations as parameters. Each method does what its function says. */
  class CaptureBody {
    const limit: int
    const contentLength: int
    const budget: ResourceBudget
    var read: int
    var reserved: int
    var complete: bool
    var overflow: bool
    var sealed: bool
    var buffer: seq<Byte>
    var open: bool
    var disk: Option<seq<Byte>>
    ghost var consumed: seq<Byte>

    ghost function View(): Capture
      reads this
    {
      Capture(limit, contentLength, read, reserved, complete, overflow, sealed, buffer, open, disk, consumed)
    }

    ghost function State(): Held
      reads this, budget
    {
      Held(View(), budget.used)
    }

    constructor (limit: int, contentLength: int, budget: ResourceBudget, overflow: bool, reserved: int)
      ensures View() == Capture(limit, contentLength, 0, reserved, false, overflow, false, [], false, None, [])
      ensures this.budget == budget
    {
      this.limit, this.contentLength, this.budget := limit, contentLength, budget;
      read, this.reserved, complete, this.overflow, sealed := 0, reserved, false, overflow, false;
      buffer, open, disk, consumed := [], false, None, [];
    }

    method DiscardLocked()
      modifies this, budget`used
      ensures State() == Discard(old(State()))
    {
      overflow := true;
      buffer := [];
      open := false;
      disk := None;
      if reserved != 0 {
        budget.Release(reserved);
        reserved := 0;
      }
    }

    method CaptureLocked(data: seq<Byte>, f: FileResult)
      requires open ==> disk.Some?
      modifies this, budget`used
      ensures State() == Recorded(old(State()), data, budget.limit, f)
    {
      if overflow || sealed {
        return;
      }
      if read > limit {
        DiscardLocked();
        return;
      }
      var additional := read - reserved;
      if additional > 0 {
        var ok := budget.Reserve(additional);
        if !ok {
          DiscardLocked();
          return;
        }
        reserved := reserved + additional;
      }
      Append(data, f);
    }

    method Append(data: seq<Byte>, f: FileResult)
      requires open ==> disk.Some?
      modifies this, budget`used
      ensures State() == Keep(old(State()), data, f)
    {
      if !open && |buffer| + |data| <= Min(limit, MEMORY_LIMIT) {
        buffer := buffer + data;
        return;
      }
      if !open {
        if !f.create {
          DiscardLocked();
          return;
        }
        open, disk := true, Some([]);
        if !f.flush {
          DiscardLocked();
          return;
        }
        disk := Some(buffer);
        buffer := [];
      }
      if !f.write {
        DiscardLocked();
        return;
      }
      disk := Some(disk.value + data);
    }

    method Read(data: seq<Byte>, eof: bool, f: FileResult)
      requires CaptureOk(State().c)
      modifies this, budget`used
      ensures State() == AfterRead(old(State()), data, eof, budget.limit, f)
      ensures CaptureOk(State().c)
    {
      hide *;
      ghost var before := State();
      OpenHasFile();
      ReadOk(before, data, eof, budget.limit, f);
      Deliver(data, f);
      ReadParts(before, data, eof, budget.limit, f, State());
      Finish(eof);
    }

    lemma OpenHasFile()
      requires CaptureOk(State().c)
      ensures open ==> disk.Some?
    {
    }

    method Deliver(data: seq<Byte>, f: FileResult)
      requires open ==> disk.Some?
      modifies this, budget`used
      ensures var h := old(State());
              var c := h.c.(read := h.c.read + |data|, consumed := h.c.consumed + data);
              State() == if |data| > 0 then Recorded(h.(c := c), data, budget.limit, f) else h.(c := c)
    {
      hide Recorded;
      consumed := consumed + data;
      if |data| > 0 {
        read := read + |data|;
        CaptureLocked(data, f);
      }
    }

    method Finish(eof: bool)
      modifies this`complete
      ensures var n := old(State());
              State() == if eof || (n.c.contentLength >= 0 && n.c.read == n.c.contentLength)
                         then n.(c := n.c.(complete := true)) else n
    {
      if eof || (contentLength >= 0 && read == contentLength) {
        complete := true;
      }
    }

    method ReplayCopy(closes: bool) returns (copy: Copy)
      modifies this
      ensures (View(), copy) == Seal(old(View()), closes)
    {
      if !complete || overflow {
        return NotReady;
      }
      sealed := true;
      if !open {
        copy := Copy(buffer, false);
        buffer := [];
        return;
      }
      open := false;
      copy := if closes then Copy([], true) else CloseFailed;
    }
  }
}
