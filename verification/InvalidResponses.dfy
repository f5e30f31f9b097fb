/** The guard on invalid requests at work: every attempt of every client reserves a place before it is sent and gives it
    back when it is answered, and an answer that counts as invalid is recorded.

The guard runs beside the proxy. Each event of the proxy comes with a note of what the guard is asked at that event and
with which clock reading.
 */
module InvalidResponses {
  import opened Base
  import opened Protocol
  import opened ProxyMachine
  import opened Theorems
  import Structure
  import RateLimit
  import GateTable
  import Guards = InvalidGuard

  /** An attempt is named by its client object and its request. */
  type Attempt = (nat, RequestId)

  datatype Note = Silent | Asking(reading: int) | Reserving(reading: int) | Completing(reading: int)

  /** `tickets` names the place that each attempt in flight has reserved; `marks` lists, for each recorded response, the
      number of the event at which it arrived. */
  datatype Books = Books(guard: Guards.History, tickets: map<Attempt, nat>, issued: nat, marks: seq<nat>)

  ghost predicate InFlight(p: Proxy, a: Attempt) {
    a.0 < |p.objs| && a.1 in p.objs[a.0].client.reqs && Sending(p.objs[a.0].client.reqs[a.1])
  }

  predicate IsSend(e: Event) {
    e.Step? && e.l.Send?
  }

  /** An attempt comes back: with a response or with an error. */
  ghost predicate IsAnswer(p: Proxy, e: Event) {
    e.Step? && e.l.Local? && InFlight(p, (e.i, e.l.r))
  }

  /** An attempt comes back with a response that counts as invalid. */
  ghost predicate IsInvalid(p: Proxy, e: Event) {
    IsAnswer(p, e) && e.l.pc.Own? && e.l.pc.stage.Got? && RateLimit.CountsAsInvalid(e.l.pc.stage.response)
  }

  /** The note fits the event: an attempt is sent only with a reservation, and whatever comes back completes its own. A
      request that is refused a reservation, or merely asks, leaves the attempt loop or goes on. */
  ghost predicate Agree(p: Proxy, e: Event, note: Note, b: Books) {
    match note
    case Silent => !IsSend(e) && !IsAnswer(p, e)
    case Asking(reading) => !IsSend(e) && !IsAnswer(p, e) && reading <= p.now
    case Reserving(reading) => IsSend(e) && reading <= p.now && Guards.Reserve(b.guard.guard, reading).1
    case Completing(reading) =>
      && IsAnswer(p, e) && reading <= p.now
      && ((e.i, e.l.r) in b.tickets && b.tickets[(e.i, e.l.r)] in b.guard.pending ==>
            b.guard.pending[b.tickets[(e.i, e.l.r)]] <= reading)
  }

  function Noted(p: Proxy, b: Books, e: Event, note: Note, k: nat, invalid: bool): Books {
    match note
    case Silent => if e.Tick? then b.(guard := Guards.Next(b.guard, Guards.Tick(e.later))) else b
    case Asking(reading) =>
      if e.Tick? then b.(guard := Guards.Next(b.guard, Guards.Tick(e.later)))
      else b.(guard := Guards.Next(b.guard, Guards.Ask(reading)))
    case Reserving(reading) =>
      if !e.Step? || !e.l.Send? then b
      else Books(Guards.Next(b.guard, Guards.Reserved(b.issued, reading)), b.tickets[(e.i, e.l.r) := b.issued],
                 b.issued + 1, b.marks)
    case Completing(reading) =>
      if !e.Step? || !e.l.Local? || (e.i, e.l.r) !in b.tickets then b
      else Books(Guards.Next(b.guard, Guards.Completed(b.tickets[(e.i, e.l.r)], reading, invalid)),
                 b.tickets - {(e.i, e.l.r)}, b.issued, if invalid then b.marks + [k] else b.marks)
  }

  datatype Guarded = Guarded(run: Run, notes: seq<Note>, books: seq<Books>)

  ghost predicate IsGuarded(s: Settings, g: Guarded, limit: nat, window: int) {
    && IsRun(s, g.run) && |g.notes| == |g.run.events| && |g.books| == |g.run.states| == |g.run.events| + 1
    && g.books[0] == Books(Guards.Begin(limit, window, g.run.states[0].now), map[], 0, [])
    && forall k :: 0 <= k < |g.notes| ==> KeepsBooks(g, k)
  }

  /** The note of event `k` fits the event, and the books are kept by it. */
  ghost predicate KeepsBooks(g: Guarded, k: int)
    requires 0 <= k < |g.notes| && |g.notes| == |g.run.events| && |g.books| == |g.run.states| == |g.run.events| + 1
  {
    var p, e := g.run.states[k], g.run.events[k];
    Agree(p, e, g.notes[k], g.books[k]) && g.books[k + 1] == Noted(p, g.books[k], e, g.notes[k], k, IsInvalid(p, e))
  }

  // ----- who is in flight -----

  lemma MovedSending(cfg: Config, c: Client, now: int, l: Label, q: Request, n: Request)
    requires Structure.Moved(c, now, l, q, n)
    requires l.Local? ==> LocalStep(cfg, c, now, q, l.pc)
    requires l.Enter? || l.Wake? || l.Cancel? ==> Wants(q).Some?
    requires l.Drop? ==> Drops(q).Some?
    requires l.Open? ==> q.pc.Admitted?
    requires l.Look? ==> q.pc.Start? || q.pc.Rechecking?
    ensures Sending(n) <==> l.Send?
  {
    hide KnownDelay, TooLate, LookTarget, RateLimit.Observe;
  }

  /** A step puts its own request in flight exactly by sending, and takes it out by any other move. */
  lemma MoverSending(cfg: Config, c: Client, now: int, l: Label)
    requires Enabled(cfg, c, now, l) && Structure.Moves(l)
    ensures l.r in c.reqs && l.r in Apply(cfg, c, now, l).reqs
    ensures Sending(Apply(cfg, c, now, l).reqs[l.r]) <==> l.Send?
    ensures Sending(c.reqs[l.r]) ==> l.Local?
  {
    hide Apply, Structure.Moved, LocalStep;
    Structure.MoveFrame(cfg, c, now, l);
    Structure.MoveRequest(cfg, c, now, l);
    MovedSending(cfg, c, now, l, c.reqs[l.r], Structure.Mover(cfg, c, now, l));
  }

  lemma StepSending(cfg: Config, c: Client, now: int, l: Label, r: RequestId)
    requires Enabled(cfg, c, now, l)
    ensures var d := Apply(cfg, c, now, l);
            (r in d.reqs && Sending(d.reqs[r])) <==>
            (l == Send(r) || (r in c.reqs && Sending(c.reqs[r]) && !(l.Local? && l.r == r)))
  {
    if Structure.Moves(l) {
      hide Apply, Enabled;
      Structure.MoveFrame(cfg, c, now, l);
      MoverSending(cfg, c, now, l);
    } else {
      hide LocalStep, Wants, Drops, DoLook, DoLearn, DoEnter, DoCount, DoUncount, DoMark, DoSend, DoBlockGlobal,
        DoBlockBucket, DoVerdict, GateTable.Release, LocalNext, OnGot, OnFail, AfterDrop;
    }
  }

  lemma EventFlight(s: Settings, p: Proxy, e: Event, a: Attempt)
    requires Possible(s, p, e)
    ensures InFlight(After(s, p, e), a) <==>
              (e.Step? && e.i == a.0 && e.l == Send(a.1)) || (InFlight(p, a) && !(IsAnswer(p, e) && a == (e.i, e.l.r)))
  {
    hide Enabled, Apply, Charge, Record, NewClient, Answered, BucketsQuiet, Sending;
    if e.Step? && e.i == a.0 {
      StepSending(s.proto, p.objs[e.i].client, p.now, e.l, a.1);
    } else if e.Admit? && p.states[e.id] == a.0 {
      StepSending(s.proto, p.objs[a.0].client, p.now, Begin(e.r, e.route, e.major, e.interaction, e.at), a.1);
    } else if e.Make? {
      NewHasNone(s, e.id, p.now);
    }
  }

  lemma NewHasNone(s: Settings, id: Identity, now: int)
    ensures NewClient(false, s.limitOf(id), s.maxWaiters, now).reqs == map[]
  {
  }

  // ----- the books -----

  /** Exactly the attempts in flight have a ticket, no two the same one, and the tickets are the guard's open
      reservations. */
  ghost predicate Matches(p: Proxy, b: Books) {
    && (forall a :: a in b.tickets <==> InFlight(p, a))
    && (forall a :: a in b.tickets ==> b.tickets[a] in b.guard.pending)
    && (forall a, c :: a in b.tickets && c in b.tickets && b.tickets[a] == b.tickets[c] ==> a == c)
    && (forall id :: id in b.guard.pending ==> id < b.issued && exists a :: a in b.tickets && b.tickets[a] == id)
  }

  ghost predicate BooksOk(p: Proxy, b: Books, limit: nat, window: int) {
    && b.guard.clock == p.now && Guards.Inv(b.guard) && b.guard.guard.limit == limit && b.guard.guard.window == window
    && Matches(p, b)
  }

  lemma ClockOf(s: Settings, p: Proxy, e: Event)
    requires Possible(s, p, e)
    ensures After(s, p, e).now == if e.Tick? then e.later else p.now
  {
    hide Enabled, Apply, Charge, Record, NewClient, Answered, BucketsQuiet;
  }

  /** The guard's side of an event. */
  lemma GuardSide(p: Proxy, b: Books, e: Event, note: Note, k: nat, invalid: bool, limit: nat, window: int)
    requires BooksOk(p, b, limit, window) && Agree(p, e, note, b) && (e.Tick? ==> p.now <= e.later)
    ensures var n := Noted(p, b, e, note, k, invalid);
            && Guards.Inv(n.guard) && n.guard.guard.limit == limit && n.guard.guard.window == window
            && n.guard.clock == if e.Tick? then e.later else p.now
  {
    hide Guards.Inv, Guards.Reserve, Guards.Complete, Guards.Prune, Guards.Dropped, InFlight;
    match note
    case Silent => if e.Tick? { Guards.EventKeeps(b.guard, Guards.Tick(e.later)); }
    case Asking(reading) =>
      Guards.EventKeeps(b.guard, if e.Tick? then Guards.Tick(e.later) else Guards.Ask(reading));
    case Reserving(reading) => Guards.EventKeeps(b.guard, Guards.Reserved(b.issued, reading));
    case Completing(reading) =>
      Guards.EventKeeps(b.guard, Guards.Completed(b.tickets[(e.i, e.l.r)], reading, invalid));
  }

  lemma SendMatches(s: Settings, p: Proxy, b: Books, e: Event, reading: int, k: nat)
    requires Matches(p, b) && Possible(s, p, e) && IsSend(e) && Guards.Reserve(b.guard.guard, reading).1
    ensures Matches(After(s, p, e), Noted(p, b, e, Reserving(reading), k, false))
  {
    hide InFlight, Possible, After, Guards.Prune, Guards.Dropped;
    var n := Noted(p, b, e, Reserving(reading), k, false);
    var q := After(s, p, e);
    var sent := (e.i, e.l.r);
    assert n.guard.pending == b.guard.pending[b.issued := b.guard.clock];
    forall a
      ensures a in n.tickets <==> InFlight(q, a)
    {
      EventFlight(s, p, e, a);
      NotAnswer(p, e);
    }
    forall id | id in n.guard.pending
      ensures id < n.issued && exists a :: a in n.tickets && n.tickets[a] == id
    {
      if id == b.issued {
        assert n.tickets[sent] == id;
      } else {
        var a :| a in b.tickets && b.tickets[a] == id;
        NewAttempt(s, p, e);
        assert a != sent && n.tickets[a] == id;
      }
    }
  }

  lemma NotAnswer(p: Proxy, e: Event)
    requires IsSend(e)
    ensures !IsAnswer(p, e)
  {
  }

  /** A request that is sent was not in flight. */
  lemma NewAttempt(s: Settings, p: Proxy, e: Event)
    requires Possible(s, p, e) && IsSend(e)
    ensures !InFlight(p, (e.i, e.l.r))
  {
    hide Answered, LocalStep, Wants, Drops;
  }

  lemma AnswerMatches(s: Settings, p: Proxy, b: Books, e: Event, reading: int, k: nat, invalid: bool)
    requires Matches(p, b) && Possible(s, p, e) && IsAnswer(p, e)
    ensures Matches(After(s, p, e), Noted(p, b, e, Completing(reading), k, invalid))
  {
    hide InFlight, Possible, After, Guards.Prune, Guards.Dropped, Guards.Complete;
    var n := Noted(p, b, e, Completing(reading), k, invalid);
    var q := After(s, p, e);
    var back := (e.i, e.l.r);
    assert n.guard.pending == b.guard.pending - {b.tickets[back]};
    forall a
      ensures a in n.tickets <==> InFlight(q, a)
    {
      EventFlight(s, p, e, a);
    }
    forall id | id in n.guard.pending
      ensures id < n.issued && exists a :: a in n.tickets && n.tickets[a] == id
    {
      var a :| a in b.tickets && b.tickets[a] == id;
      assert a != back && n.tickets[a] == id;
    }
  }

  lemma OtherMatches(s: Settings, p: Proxy, b: Books, e: Event, note: Note, k: nat, invalid: bool)
    requires Matches(p, b) && Possible(s, p, e) && (note.Silent? || note.Asking?) && !IsSend(e) && !IsAnswer(p, e)
    ensures Matches(After(s, p, e), Noted(p, b, e, note, k, invalid))
  {
    hide InFlight, Possible, After, Guards.Prune, Guards.Dropped;
    var n := Noted(p, b, e, note, k, invalid);
    assert n.guard.pending == b.guard.pending && n.tickets == b.tickets && n.issued == b.issued;
    forall a
      ensures a in n.tickets <==> InFlight(After(s, p, e), a)
    {
      EventFlight(s, p, e, a);
    }
  }

  lemma EventBooks(s: Settings, p: Proxy, b: Books, e: Event, note: Note, k: nat, limit: nat, window: int)
    requires BooksOk(p, b, limit, window) && Possible(s, p, e) && Agree(p, e, note, b)
    ensures BooksOk(After(s, p, e), Noted(p, b, e, note, k, IsInvalid(p, e)), limit, window)
  {
    hide Guards.Inv, Guards.Reserve, After, Noted, Matches, Enabled, Answered, InFlight, BucketsQuiet;
    ClockOf(s, p, e);
    GuardSide(p, b, e, note, k, IsInvalid(p, e), limit, window);
    match note
    case Reserving(reading) =>
      NotAnswer(p, e);
      SendMatches(s, p, b, e, reading, k);
    case Completing(reading) => AnswerMatches(s, p, b, e, reading, k, IsInvalid(p, e));
    case _ => OtherMatches(s, p, b, e, note, k, IsInvalid(p, e));
  }

  // ----- the marks -----

  /** The marks are the invalid answers so far, in order, each with the reading that was recorded for it. */
  ghost predicate Marked(g: Guarded, k: nat)
    requires k < |g.books| && |g.books| == |g.run.states| == |g.run.events| + 1 && |g.notes| == |g.run.events|
  {
    var b := g.books[k];
    && |b.marks| == |b.guard.recorded|
    && (forall x :: 0 <= x < |b.marks| ==>
                      && b.marks[x] < k && g.notes[b.marks[x]] == Completing(b.guard.recorded[x])
                      && IsInvalid(g.run.states[b.marks[x]], g.run.events[b.marks[x]]))
    && (forall j :: 0 <= j < k && IsInvalid(g.run.states[j], g.run.events[j]) ==> j in b.marks)
  }

  lemma {:induction false} AlwaysBooks(s: Settings, g: Guarded, limit: nat, window: int, k: nat)
    requires IsGuarded(s, g, limit, window) && window > 0 && k < |g.books|
    ensures BooksOk(g.run.states[k], g.books[k], limit, window)
  {
    hide Possible, After, Initial, Agree, Noted, BooksOk;
    if k == 0 {
      FirstBooks(s, g.run.states[0].now, limit, window);
    } else {
      AlwaysBooks(s, g, limit, window, k - 1);
      assert KeepsBooks(g, k - 1);
      EventBooks(s, g.run.states[k - 1], g.books[k - 1], g.run.events[k - 1], g.notes[k - 1], k - 1, limit, window);
    }
  }

  lemma FirstBooks(s: Settings, now: int, limit: nat, window: int)
    requires window > 0
    ensures BooksOk(Initial(s, now), Books(Guards.Begin(limit, window, now), map[], 0, []), limit, window)
  {
    forall from
      ensures Guards.InWindow([], from, window) == {} && Guards.MayLand(map[], from, window) == {}
    {
    }
    assert Initial(s, now).objs[0].client.reqs == map[];
  }

  lemma NotedMarks(p: Proxy, b: Books, e: Event, note: Note, k: nat, invalid: bool)
    requires Agree(p, e, note, b) && (note.Completing? ==> (e.i, e.l.r) in b.tickets) && (invalid ==> note.Completing?)
    ensures var n := Noted(p, b, e, note, k, invalid);
            && n.marks == (if invalid then b.marks + [k] else b.marks)
            && n.guard.recorded == (if invalid then b.guard.recorded + [note.reading] else b.guard.recorded)
  {
    hide Guards.Reserve, Guards.Complete, Guards.Prune, Guards.Dropped, InFlight;
  }

  lemma TicketOf(p: Proxy, b: Books, e: Event, note: Note, limit: nat, window: int)
    requires BooksOk(p, b, limit, window) && Agree(p, e, note, b)
    ensures note.Completing? ==> (e.i, e.l.r) in b.tickets
    ensures IsInvalid(p, e) ==> note.Completing?
  {
    hide Guards.Inv, Guards.Reserve;
  }

  lemma {:induction false} AlwaysMarked(s: Settings, g: Guarded, limit: nat, window: int, k: nat)
    requires IsGuarded(s, g, limit, window) && window > 0 && k < |g.books|
    ensures Marked(g, k)
  {
    hide IsRun, Agree, Noted, BooksOk, IsInvalid;
    if k > 0 {
      var j := k - 1;
      AlwaysMarked(s, g, limit, window, j);
      AlwaysBooks(s, g, limit, window, j);
      assert KeepsBooks(g, j);
      var p, e, b := g.run.states[j], g.run.events[j], g.books[j];
      TicketOf(p, b, e, g.notes[j], limit, window);
      NotedMarks(p, b, e, g.notes[j], j, IsInvalid(p, e));
    }
  }

  // ----- the theorems -----

  /** A response that uses up the safety budget: 401, 403, or a 429 that Discord does not mark as shared. */
  predicate Harmful(response: RateLimit.Response) {
    || response.status in {401, 403}
    || (response.status == 429 && !(response.headers.Some? && response.headers.value.scope == RateLimit.SharedScope))
  }

  /** An attempt comes back with such a response. */
  ghost predicate BringsHarm(p: Proxy, e: Event) {
    IsAnswer(p, e) && e.l.pc.Own? && e.l.pc.stage.Got? && Harmful(e.l.pc.stage.response)
  }

  lemma HarmIsInvalid(p: Proxy, e: Event)
    ensures BringsHarm(p, e) <==> IsInvalid(p, e)
  {
    hide InFlight;
  }

  /** The events before `k` at which such a response arrives with a reading in the window that starts at `from`. */
  ghost function Invalid(g: Guarded, k: nat, from: int, window: int): set<int>
    requires k < |g.books| && |g.books| == |g.run.states| == |g.run.events| + 1 && |g.notes| == |g.run.events|
  {
    set j | 0 <= j < k && BringsHarm(g.run.states[j], g.run.events[j]) && g.notes[j].Completing?
            && from <= g.notes[j].reading < from + window
  }

  lemma {:induction false} ImageSize(events: set<int>, marks: seq<nat>, xs: set<int>)
    requires forall j :: j in events ==> exists x :: x in xs && 0 <= x < |marks| && marks[x] == j
    ensures |events| <= |xs|
    decreases |events|
  {
    if events != {} {
      var j := Pick(events);
      var x :| x in xs && 0 <= x < |marks| && marks[x] == j;
      forall i | i in events - {j}
        ensures exists y :: y in xs - {x} && 0 <= y < |marks| && marks[y] == i
      {
        var y :| y in xs && 0 <= y < |marks| && marks[y] == i;
        assert y in xs - {x};
      }
      ImageSize(events - {j}, marks, xs - {x});
    }
  }

  /** In every run of all clients together, however requests interleave and readings are delayed, no window contains
      more responses of status 401, 403 or non-shared 429 than the limit. */
  lemma InvalidResponsesBounded(s: Settings, g: Guarded, limit: nat, window: int, k: nat, from: int)
    requires IsGuarded(s, g, limit, window) && window > 0 && k < |g.books|
    ensures |Invalid(g, k, from, window)| <= limit
  {
    hide IsRun, Agree, Noted, IsInvalid, BringsHarm, Matches;
    AlwaysBooks(s, g, limit, window, k);
    AlwaysMarked(s, g, limit, window, k);
    var b := g.books[k];
    var xs := Guards.InWindow(b.guard.recorded, from, window);
    var bad := Invalid(g, k, from, window);
    forall j | j in bad
      ensures exists x :: x in xs && 0 <= x < |b.marks| && b.marks[x] == j
    {
      HarmIsInvalid(g.run.states[j], g.run.events[j]);
      assert j in b.marks;
      var x :| 0 <= x < |b.marks| && b.marks[x] == j;
      assert x in xs;
    }
    ImageSize(bad, b.marks, xs);
    assert |xs| + |Guards.MayLand(b.guard.pending, from, window)| <= limit;
  }

  /** In every run the guard has recorded exactly these responses, each with the reading it came with. */
  lemma RecordedExactly(s: Settings, g: Guarded, limit: nat, window: int, k: nat, j: nat)
    requires IsGuarded(s, g, limit, window) && window > 0 && k < |g.books| && j < k
    ensures BringsHarm(g.run.states[j], g.run.events[j]) <==> j in g.books[k].marks
    ensures |g.books[k].marks| == |g.books[k].guard.recorded|
    ensures forall x :: 0 <= x < |g.books[k].marks| && g.books[k].marks[x] == j ==>
                          g.notes[j] == Completing(g.books[k].guard.recorded[x])
  {
    hide IsRun, Agree, Noted, IsInvalid, BringsHarm, Matches;
    AlwaysMarked(s, g, limit, window, k);
    HarmIsInvalid(g.run.states[j], g.run.events[j]);
  }

  /** In every run the guard's open reservations are exactly the attempts in flight. */
  lemma ReservationsAreAttempts(s: Settings, g: Guarded, limit: nat, window: int, k: nat, a: Attempt)
    requires IsGuarded(s, g, limit, window) && window > 0 && k < |g.books|
    ensures InFlight(g.run.states[k], a) <==> a in g.books[k].tickets
    ensures g.books[k].guard.pending.Keys == g.books[k].tickets.Values
  {
    hide IsRun, Agree, Noted, InFlight, Guards.Inv;
    AlwaysBooks(s, g, limit, window, k);
    var b := g.books[k];
    forall id
      ensures id in b.guard.pending.Keys <==> id in b.tickets.Values
    {
      if id in b.tickets.Values {
        var a :| a in b.tickets && b.tickets[a] == id;
      }
    }
  }
}
