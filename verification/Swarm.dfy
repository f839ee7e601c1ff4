/** The swarm's event loop: controller commands leave one-shot senders in two pending tables, and
    network events consume them in any order. */
module Swarm {
  import opened Words

  datatype Kind = Put | PutTo | Get | GetProviders | StartProviding | ClosestPeers | Verification

  /** The identity of a one-shot channel; every command brings its own. */
  type Sender = nat

  datatype Pending = Pending(kind: Kind, sender: Sender)

  /** Kademlia queries and verification requests are numbered independently. */
  datatype Slot = Query(id: nat) | Request(id: nat)

  datatype ResultKind = GetRecord | PutRecord | Providers | Closest | Providing | Unhandled

  /** The success a handler expects, another success of the same kind, or a failure. */
  datatype Status = Found | OtherOk | Failed

  datatype Event =
    /** A controller command: whether its caller still waits, whether the local store refuses it,
        and the identifier the network layer assigns to it. */
    | Command(kind: Kind, sender: Sender, waiting: bool, refused: bool, id: nat)
    | ControllerGone
    /** A Kademlia query reports progress; `waiting` says whether the receiver still exists. */
    | Progress(id: nat, result: ResultKind, status: Status, body: nat, waiting: bool)
    /** A verification request is answered, or fails on either side. */
    | Reply(id: nat, ok: bool, body: nat, waiting: bool)
    /** A peer's verification request was answered; `sent` says whether the response left. */
    | Inbound(sent: bool)
    | Ignored

  datatype Delivery = Delivery(sender: Sender, kind: Kind, slot: Slot, ok: bool, body: nat)

  datatype Ticket = Ticket(slot: Slot, kind: Kind)

  datatype Stop = MissingInstruction | CallerGone | Refused | InvalidChannel | SendFailed | QueryFailed | ResponseFailed

  /** The two tables, whether the loop still runs, and the history: what was delivered, whose sender
      was dropped undelivered, and which command each sender belongs to. */
  datatype State = State(queries: map<nat, Pending>, requests: map<nat, Pending>, running: bool,
                         log: seq<Delivery>, dropped: set<Sender>, issued: map<Sender, Ticket>)

  const Start: State := State(map[], map[], true, [], {}, map[])

  // ----- steps -----

  function SlotOf(kind: Kind, id: nat): Slot {
    if kind == Verification then Request(id) else Query(id)
  }

  function Lookup(s: State, slot: Slot): Option<Pending> {
    match slot
    case Query(id) => if id in s.queries then Some(s.queries[id]) else None
    case Request(id) => if id in s.requests then Some(s.requests[id]) else None
  }

  function Removed(s: State, slot: Slot): State {
    match slot
    case Query(id) => s.(queries := s.queries - {id})
    case Request(id) => s.(requests := s.requests - {id})
  }

  function Inserted(s: State, slot: Slot, p: Pending): State {
    match slot
    case Query(id) => s.(queries := s.queries[id := p])
    case Request(id) => s.(requests := s.requests[id := p])
  }

  function Dropping(s: State, p: Option<Pending>): State {
    if p.Some? then s.(dropped := s.dropped + {p.value.sender}) else s
  }

  function Stopped(s: State): State {
    s.(running := false)
  }

  /** Which pending kinds a query result may answer. */
  predicate Answers(result: ResultKind, kind: Kind) {
    match result
    case GetRecord => kind == Get
    case PutRecord => kind == Put || kind == PutTo
    case Providers => kind == GetProviders
    case Closest => kind == ClosestPeers
    case Providing => kind == StartProviding
    case Unhandled => false
  }

  /** Put and get results are always forwarded; the others end the loop when the query failed. */
  predicate Forwards(result: ResultKind, status: Status) {
    status != Failed || result == GetRecord || result == PutRecord
  }

  /** Whether the caller sees a success. */
  predicate Succeeds(result: ResultKind, status: Status) {
    status == Found || (status == OtherOk && result != GetRecord && result != Providers)
  }

  function Delivered(s: State, p: Pending, slot: Slot, ok: bool, body: nat, waiting: bool): State {
    if waiting then s.(log := s.log + [Delivery(p.sender, p.kind, slot, ok, body)])
    else Stopped(Dropping(s, Some(p)))
  }

  /** A one-shot sender is created; it is dropped at once if the caller is gone or the store
      refuses the command, and an entry it displaces is dropped too. */
  function AfterCommand(s: State, kind: Kind, sender: Sender, waiting: bool, refused: bool, id: nat): State {
    var slot := SlotOf(kind, id);
    var known := s.(issued := s.issued[sender := Ticket(slot, kind)]);
    if !waiting || (refused && (kind == Put || kind == StartProviding)) then
      Stopped(Dropping(known, Some(Pending(kind, sender))))
    else Inserted(Dropping(known, Lookup(s, slot)), slot, Pending(kind, sender))
  }

  function AfterProgress(s: State, id: nat, result: ResultKind, status: Status, body: nat, waiting: bool): State {
    var p := Lookup(s, Query(id));
    var rest := Removed(s, Query(id));
    if result == Unhandled then s
    else if p.None? || !Answers(result, p.value.kind) then
      if result == GetRecord then Dropping(rest, p) else Stopped(Dropping(rest, p))
    else if !Forwards(result, status) then Stopped(Dropping(rest, p))
    else Delivered(rest, p.value, Query(id), Succeeds(result, status), body, waiting)
  }

  function AfterReply(s: State, id: nat, ok: bool, body: nat, waiting: bool): State {
    var p := Lookup(s, Request(id));
    var rest := Removed(s, Request(id));
    if p.None? || p.value.kind != Verification then Stopped(Dropping(rest, p))
    else Delivered(rest, p.value, Request(id), ok, body, waiting)
  }

  function Step(s: State, e: Event): State {
    if !s.running then s
    else match e
      case Command(kind, sender, waiting, refused, id) => AfterCommand(s, kind, sender, waiting, refused, id)
      case ControllerGone => Stopped(s)
      case Progress(id, result, status, body, waiting) => AfterProgress(s, id, result, status, body, waiting)
      case Reply(id, ok, body, waiting) => AfterReply(s, id, ok, body, waiting)
      case Inbound(sent) => if sent then s else Stopped(s)
      case Ignored => s
  }

  /** The error a handler returns, which ends the loop. */
  function ErrorOf(s: State, e: Event): Option<Stop> {
    match e
    case Command(kind, _, waiting, refused, _) =>
      if !waiting then Some(CallerGone)
      else if refused && (kind == Put || kind == StartProviding) then Some(Refused) else None
    case ControllerGone => Some(MissingInstruction)
    case Progress(id, result, status, _, waiting) =>
      var p := Lookup(s, Query(id));
      if result == Unhandled then None
      else if p.None? || !Answers(result, p.value.kind) then
        if result == GetRecord then None else Some(InvalidChannel)
      else if !Forwards(result, status) then Some(QueryFailed)
      else if !waiting then Some(SendFailed) else None
    case Reply(id, _, _, waiting) =>
      var p := Lookup(s, Request(id));
      if p.None? || p.value.kind != Verification then Some(InvalidChannel)
      else if !waiting then Some(SendFailed) else None
    case Inbound(sent) => if sent then None else Some(ResponseFailed)
    case Ignored => None
  }

  function Run(es: seq<Event>): State {
    if es == [] then Start else Step(Run(es[..|es| - 1]), es[|es| - 1])
  }

  // ----- safety over every run -----

  /** Every command brings a new one-shot channel. */
  ghost predicate FreshSenders(es: seq<Event>) {
    forall i, j :: 0 <= i < j < |es| && es[i].Command? && es[j].Command? ==> es[i].sender != es[j].sender
  }

  ghost predicate Answered(s: State, x: Sender) {
    exists k :: 0 <= k < |s.log| && s.log[k].sender == x
  }

  ghost predicate Waiting(s: State, x: Sender) {
    x in s.issued && Lookup(s, s.issued[x].slot) == Some(Pending(s.issued[x].kind, x))
  }

  /** A pending entry sits in the slot its command was given. */
  ghost predicate PendingIsIssued(s: State) {
    forall slot :: Lookup(s, slot).Some? ==>
      var p := Lookup(s, slot).value;
      p.sender in s.issued && s.issued[p.sender] == Ticket(slot, p.kind) && slot == SlotOf(p.kind, slot.id)
  }

  /** A result reaches only the caller whose command was assigned that slot, with the right kind. */
  ghost predicate LogIsIssued(s: State) {
    forall k :: 0 <= k < |s.log| ==>
      s.log[k].sender in s.issued && s.issued[s.log[k].sender] == Ticket(s.log[k].slot, s.log[k].kind)
  }

  ghost predicate LogIsUnique(s: State) {
    forall i, j :: 0 <= i < j < |s.log| ==> s.log[i].sender != s.log[j].sender
  }

  /** Exactly one of pending, answered, dropped. */
  ghost predicate OneFate(s: State, x: Sender) {
    && (Waiting(s, x) || Answered(s, x) || x in s.dropped)
    && !(Waiting(s, x) && Answered(s, x)) && !(Waiting(s, x) && x in s.dropped)
    && !(Answered(s, x) && x in s.dropped)
  }

  ghost predicate Safe(s: State) {
    && PendingIsIssued(s) && LogIsIssued(s) && LogIsUnique(s)
    && s.dropped <= s.issued.Keys
    && forall x :: x in s.issued ==> OneFate(s, x)
  }

  lemma RemovedLookup(s: State, slot: Slot, other: Slot)
    ensures Lookup(Removed(s, slot), other) == if other == slot then None else Lookup(s, other)
  {
  }

  /** Taking an entry out of its table makes its sender, and nobody else, stop waiting. */
  lemma RemovedWaiting(s: State, slot: Slot, x: Sender)
    requires PendingIsIssued(s)
    ensures Waiting(Removed(s, slot), x)
      <==> Waiting(s, x) && !(Lookup(s, slot).Some? && Lookup(s, slot).value.sender == x)
  {
    if x in s.issued {
      RemovedLookup(s, slot, s.issued[x].slot);
    }
  }

  lemma RemovedIsIssued(s: State, slot: Slot)
    requires PendingIsIssued(s)
    ensures PendingIsIssued(Removed(s, slot))
  {
    forall other | Lookup(Removed(s, slot), other).Some?
      ensures var p := Lookup(Removed(s, slot), other).value;
        p.sender in s.issued && s.issued[p.sender] == Ticket(other, p.kind) && other == SlotOf(p.kind, other.id)
    {
      RemovedLookup(s, slot, other);
    }
  }

  lemma DropKeepsSafe(s: State, slot: Slot)
    requires Safe(s)
    ensures Safe(Dropping(Removed(s, slot), Lookup(s, slot)))
  {
    var r := Dropping(Removed(s, slot), Lookup(s, slot));
    RemovedIsIssued(s, slot);
    forall other ensures Lookup(r, other) == Lookup(Removed(s, slot), other) {
    }
    forall x | x in s.issued ensures OneFate(r, x) {
      RemovedWaiting(s, slot, x);
      assert OneFate(s, x);
    }
  }

  lemma DeliverKeepsSafe(s: State, slot: Slot, ok: bool, body: nat)
    requires Safe(s) && Lookup(s, slot).Some?
    ensures Safe(Delivered(Removed(s, slot), Lookup(s, slot).value, slot, ok, body, true))
  {
    var p := Lookup(s, slot).value;
    var r := Delivered(Removed(s, slot), p, slot, ok, body, true);
    RemovedIsIssued(s, slot);
    forall other ensures Lookup(r, other) == Lookup(Removed(s, slot), other) {
    }
    assert r.log[|s.log|].sender == p.sender;
    forall x | x in s.issued ensures OneFate(r, x) {
      RemovedWaiting(s, slot, x);
      assert OneFate(s, x);
      assert Answered(r, x) <==> Answered(s, x) || x == p.sender by {
        if Answered(s, x) {
          var k :| 0 <= k < |s.log| && s.log[k].sender == x;
          assert r.log[k].sender == x;
        }
      }
    }
    assert Waiting(s, p.sender);
  }

  lemma StoppingKeepsSafe(s: State)
    requires Safe(s)
    ensures Safe(Stopped(s))
  {
    forall slot ensures Lookup(Stopped(s), slot) == Lookup(s, slot) {
    }
    forall x | x in s.issued ensures OneFate(Stopped(s), x) {
      assert OneFate(s, x);
    }
  }

  /** A command that is turned away leaves its new sender dropped. */
  lemma TurnedAwayKeepsSafe(s: State, sender: Sender, ticket: Ticket)
    requires Safe(s) && sender !in s.issued
    ensures Safe(s.(issued := s.issued[sender := ticket], dropped := s.dropped + {sender}))
  {
    var r := s.(issued := s.issued[sender := ticket], dropped := s.dropped + {sender});
    forall slot ensures Lookup(r, slot) == Lookup(s, slot) {
    }
    forall x | x in r.issued ensures OneFate(r, x) {
      assert x != sender ==> OneFate(s, x);
    }
  }

  /** A command that is taken on waits in its empty slot. */
  lemma FillKeepsSafe(t: State, sender: Sender, kind: Kind, slot: Slot)
    requires Safe(t) && sender !in t.issued && Lookup(t, slot).None? && slot == SlotOf(kind, slot.id)
    ensures Safe(Inserted(t.(issued := t.issued[sender := Ticket(slot, kind)]), slot, Pending(kind, sender)))
  {
    var r := Inserted(t.(issued := t.issued[sender := Ticket(slot, kind)]), slot, Pending(kind, sender));
    forall other ensures Lookup(r, other) == if other == slot then Some(Pending(kind, sender)) else Lookup(t, other) {
    }
    hide Lookup, Inserted;
    forall x | x in r.issued ensures OneFate(r, x) {
      assert x != sender ==> OneFate(t, x);
    }
  }

  lemma DisplacingInsert(s: State, kind: Kind, sender: Sender, id: nat)
    ensures var slot := SlotOf(kind, id);
      var t := Dropping(Removed(s, slot), Lookup(s, slot));
      t.issued == s.issued && Lookup(t, slot).None? && slot.id == id
      && AfterCommand(s, kind, sender, true, false, id)
         == Inserted(t.(issued := t.issued[sender := Ticket(slot, kind)]), slot, Pending(kind, sender))
  {
    match SlotOf(kind, id)
    case Query(_) =>
      assert (s.queries - {id})[id := Pending(kind, sender)] == s.queries[id := Pending(kind, sender)];
    case Request(_) =>
      assert (s.requests - {id})[id := Pending(kind, sender)] == s.requests[id := Pending(kind, sender)];
  }

  /** Whoever waited in the slot before is dropped. */
  lemma InsertKeepsSafe(s: State, sender: Sender, kind: Kind, id: nat)
    requires Safe(s) && sender !in s.issued
    ensures Safe(AfterCommand(s, kind, sender, true, false, id))
  {
    hide Safe, Lookup, Removed, Inserted, AfterCommand;
    var slot := SlotOf(kind, id);
    var t := Dropping(Removed(s, slot), Lookup(s, slot));
    DisplacingInsert(s, kind, sender, id);
    DropKeepsSafe(s, slot);
    FillKeepsSafe(t, sender, kind, slot);
  }

  lemma StepKeepsSafe(s: State, e: Event)
    requires Safe(s) && (e.Command? ==> e.sender !in s.issued)
    ensures Safe(Step(s, e))
  {
    hide Safe, Lookup, Removed;
    if s.running {
      match e
      case Command(kind, sender, waiting, refused, id) =>
        if !waiting || (refused && (kind == Put || kind == StartProviding)) {
          var ticket := Ticket(SlotOf(kind, id), kind);
          TurnedAwayKeepsSafe(s, sender, ticket);
          StoppingKeepsSafe(s.(issued := s.issued[sender := ticket], dropped := s.dropped + {sender}));
        } else {
          InsertKeepsSafe(s, sender, kind, id);
        }
      case ControllerGone => StoppingKeepsSafe(s);
      case Inbound(_) => StoppingKeepsSafe(s);
      case Progress(id, result, status, body, waiting) =>
        ConsumeKeepsSafe(s, Query(id), Succeeds(result, status), body);
      case Reply(id, ok, body, waiting) =>
        ConsumeKeepsSafe(s, Request(id), ok, body);
      case Ignored =>
    }
  }

  lemma ConsumeKeepsSafe(s: State, slot: Slot, ok: bool, body: nat)
    requires Safe(s)
    ensures Safe(Dropping(Removed(s, slot), Lookup(s, slot)))
    ensures Safe(Stopped(Dropping(Removed(s, slot), Lookup(s, slot))))
    ensures Lookup(s, slot).Some? ==> Safe(Delivered(Removed(s, slot), Lookup(s, slot).value, slot, ok, body, true))
  {
    hide Safe;
    DropKeepsSafe(s, slot);
    StoppingKeepsSafe(Dropping(Removed(s, slot), Lookup(s, slot)));
    if Lookup(s, slot).Some? {
      DeliverKeepsSafe(s, slot, ok, body);
    }
  }

  lemma StepIssues(s: State, e: Event)
    ensures Step(s, e).issued
         == if s.running && e.Command? then s.issued[e.sender := Ticket(SlotOf(e.kind, e.id), e.kind)] else s.issued
  {
  }

  lemma {:induction false} IssuedByCommand(es: seq<Event>, x: Sender) returns (i: nat)
    requires x in Run(es).issued
    ensures i < |es| && es[i].Command? && es[i].sender == x
    ensures Run(es).issued[x] == Ticket(SlotOf(es[i].kind, es[i].id), es[i].kind)
  {
    var init, e := es[..|es| - 1], es[|es| - 1];
    StepIssues(Run(init), e);
    hide Step;
    if Run(init).running && e.Command? && e.sender == x {
      i := |es| - 1;
    } else {
      i := IssuedByCommand(init, x);
    }
  }

  /** Over every interleaving: one-shot senders are used at most once, results reach only the caller
      they were asked by, and every issued command has exactly one fate. */
  lemma {:induction false} EveryRunIsSafe(es: seq<Event>)
    requires FreshSenders(es)
    ensures Safe(Run(es))
  {
    hide Step;
    if es != [] {
      var init, e := es[..|es| - 1], es[|es| - 1];
      EveryRunIsSafe(init);
      if e.Command? && e.sender in Run(init).issued {
        var i := IssuedByCommand(init, e.sender);
      }
      StepKeepsSafe(Run(init), e);
    }
  }

  lemma StepOnlyAppends(s: State, e: Event)
    ensures s.log <= Step(s, e).log && s.dropped <= Step(s, e).dropped
    ensures !s.running ==> Step(s, e) == s
  {
    match e
    case Command(_, _, _, _, _) =>
    case Progress(_, _, _, _, _) =>
    case Reply(_, _, _, _) =>
    case _ =>
  }

  /** The delivery is what this event reports: same identifier, matching kind, same content. */
  ghost predicate Explains(e: Event, d: Delivery) {
    match e
    case Progress(id, result, status, body, waiting) =>
      && waiting && d.slot == Query(id) && d.body == body
      && (result, d.kind) in {(GetRecord, Get), (PutRecord, Put), (PutRecord, PutTo), (Providers, GetProviders),
                              (Closest, ClosestPeers), (Providing, StartProviding)}
      && d.ok == (status == Found || (status == OtherOk && result in {PutRecord, Closest, Providing}))
    case Reply(id, ok, body, waiting) =>
      waiting && d.slot == Request(id) && d.kind == Verification && d.ok == ok && d.body == body
    case _ => false
  }

  lemma StepDelivers(s: State, e: Event)
    requires |Step(s, e).log| > |s.log|
    ensures |Step(s, e).log| == |s.log| + 1
    ensures var d := Step(s, e).log[|s.log|];
      Explains(e, d) && Lookup(s, d.slot) == Some(Pending(d.kind, d.sender))
  {
    match e
    case Progress(_, _, _, _, _) =>
    case Reply(_, _, _, _) =>
    case _ =>
  }

  /** Every delivery of every run answers an earlier command, with the identifier and kind that
      command was given, and carries what a later event of that identifier and kind reported. */
  lemma {:induction false} DeliveryHasOrigin(es: seq<Event>, k: nat) returns (c: nat, t: nat)
    requires FreshSenders(es) && k < |Run(es).log|
    ensures c < t < |es| && es[c].Command? && Explains(es[t], Run(es).log[k])
    ensures var d := Run(es).log[k];
      d.sender == es[c].sender && d.kind == es[c].kind && d.slot == SlotOf(es[c].kind, es[c].id)
  {
    hide Step, Explains, Lookup;
    var init, e := es[..|es| - 1], es[|es| - 1];
    StepOnlyAppends(Run(init), e);
    if k < |Run(init).log| {
      c, t := DeliveryHasOrigin(init, k);
    } else {
      StepDelivers(Run(init), e);
      EveryRunIsSafe(init);
      t := |es| - 1;
      c := IssuedByCommand(init, Run(es).log[k].sender);
    }
  }

  lemma StepEndsOnError(s: State, e: Event)
    requires s.running
    ensures Step(s, e).running <==> ErrorOf(s, e).None?
  {
  }

  /** The loop is still running exactly when no event of the run made its handler return an error. */
  lemma {:induction false} RunsUntilFirstError(es: seq<Event>)
    ensures Run(es).running <==> forall t :: 0 <= t < |es| ==> ErrorOf(Run(es[..t]), es[t]).None?
  {
    hide Step, ErrorOf, Run;
    if es == [] {
      assert Run(es) == Start by { RunNothing(); }
    } else {
      var n := |es| - 1;
      var init := es[..n];
      RunsUntilFirstError(init);
      forall t | 0 <= t < n ensures init[..t] == es[..t] && init[t] == es[t] {
      }
      RunNext(es, n);
      assert es[..n + 1] == es;
      StepOnlyAppends(Run(init), es[n]);
      if Run(init).running {
        StepEndsOnError(Run(init), es[n]);
      }
    }
  }

  lemma RunNothing()
    ensures Run([]) == Start
  {
  }

  /** Deliveries are final. */
  lemma {:induction false} DeliveriesAreFinal(es: seq<Event>, more: seq<Event>)
    ensures Run(es).log <= Run(es + more).log && Run(es).dropped <= Run(es + more).dropped
  {
    hide Step;
    if more == [] {
      assert es + more == es;
    } else {
      var init := more[..|more| - 1];
      DeliveriesAreFinal(es, init);
      assert (es + more)[..|es + more| - 1] == es + init;
      StepOnlyAppends(Run(es + init), more[|more| - 1]);
    }
  }

  // ----- when a handler finds no channel -----

  /** The command that fills a slot. */
  predicate Asks(e: Event, slot: Slot) {
    e.Command? && SlotOf(e.kind, e.id) == slot
  }

  /** An event whose handler empties a slot. */
  predicate Touches(e: Event, slot: Slot) {
    (e.Progress? && slot == Query(e.id) && e.result != Unhandled) || (e.Reply? && slot == Request(e.id))
  }

  /** The network layer never reuses an identifier. */
  ghost predicate FreshSlots(es: seq<Event>) {
    forall i, j, slot :: 0 <= i < j < |es| && Asks(es[i], slot) ==> !Asks(es[j], slot)
  }

  /** The command at index c asked for the slot and no event has touched it since. */
  ghost predicate OpenSince(es: seq<Event>, c: int, slot: Slot) {
    0 <= c < |es| && Asks(es[c], slot) && forall t :: c < t < |es| ==> !Touches(es[t], slot)
  }

  lemma StepLookup(s: State, e: Event, slot: Slot)
    requires s.running && Step(s, e).running
    ensures Lookup(Step(s, e), slot)
         == if Asks(e, slot) then Some(Pending(e.kind, e.sender)) else if Touches(e, slot) then None else Lookup(s, slot)
  {
  }

  lemma OpenSinceStep(es: seq<Event>, c: int, slot: Slot)
    requires es != []
    ensures var n := |es| - 1;
      OpenSince(es, c, slot)
      <==> (c == n && Asks(es[n], slot)) || (!Touches(es[n], slot) && OpenSince(es[..n], c, slot))
  {
    var n := |es| - 1;
    assert forall t :: 0 <= t < n ==> es[..n][t] == es[t];
  }

  /** While the loop runs, the tables hold exactly the commands not yet touched. */
  lemma {:induction false} TablesHoldOpenCommands(es: seq<Event>, slot: Slot)
    requires FreshSlots(es) && Run(es).running
    ensures Lookup(Run(es), slot).Some? <==> exists c :: OpenSince(es, c, slot)
    ensures forall c :: OpenSince(es, c, slot) ==>
      Lookup(Run(es), slot) == Some(Pending(es[c].kind, es[c].sender))
  {
    if es != [] {
      var n := |es| - 1;
      var init, e := es[..n], es[n];
      StepOnlyAppends(Run(init), e);
      TablesHoldOpenCommands(init, slot);
      StepLookup(Run(init), e, slot);
      hide Step, Lookup;
      forall c ensures OpenSince(es, c, slot)
        <==> (c == n && Asks(e, slot)) || (!Touches(e, slot) && OpenSince(init, c, slot))
      {
        OpenSinceStep(es, c, slot);
      }
      if Asks(e, slot) {
        assert OpenSince(es, n, slot);
      } else if c :| OpenSince(init, c, slot) && !Touches(e, slot) {
        assert OpenSince(es, c, slot);
      }
    }
  }

  /** The channel a result needs: an open command of a kind it answers. */
  ghost predicate HasChannel(es: seq<Event>, id: nat, result: ResultKind) {
    exists c :: OpenSince(es, c, Query(id)) && Answers(result, es[c].kind)
  }

  /** A result other than a get-record finds no channel exactly when no command of its kind is open
      under its identifier. */
  lemma InvalidChannelExactly(es: seq<Event>, e: Event)
    requires FreshSlots(es) && Run(es).running
    requires e.Progress? && e.result != Unhandled && e.result != GetRecord
    ensures ErrorOf(Run(es), e) == Some(InvalidChannel) <==> !HasChannel(es, e.id, e.result)
  {
    TablesHoldOpenCommands(es, Query(e.id));
    if c :| OpenSince(es, c, Query(e.id)) {
      assert Lookup(Run(es), Query(e.id)) == Some(Pending(es[c].kind, es[c].sender));
    }
  }

  /** A result that some handler takes. */
  ghost predicate Reports(e: Event, id: nat) {
    e.Progress? && e.id == id && e.result != Unhandled
  }

  /** Every result other than a get-record answers an earlier command of its kind, and only
      get-record results share a query. */
  ghost predicate OneResultPerQuery(es: seq<Event>) {
    && (forall t :: 0 <= t < |es| && es[t].Progress? && Reports(es[t], es[t].id) && es[t].result != GetRecord ==>
          Asked(es[..t], es[t].id, es[t].result))
    && (forall i, j :: 0 <= i < j < |es| && es[j].Progress? && Reports(es[i], es[j].id) && Reports(es[j], es[j].id) ==>
          es[i].result == es[j].result == GetRecord)
  }

  /** Some command asked for a result of this kind under this identifier. */
  ghost predicate Asked(es: seq<Event>, id: nat, result: ResultKind) {
    exists c :: 0 <= c < |es| && Asks(es[c], Query(id)) && Answers(result, es[c].kind)
  }

  lemma FirstResultHasChannel(es: seq<Event>, t: nat)
    requires FreshSlots(es) && OneResultPerQuery(es) && t < |es|
    requires es[t].Progress? && es[t].result != Unhandled && es[t].result != GetRecord
    ensures HasChannel(es[..t], es[t].id, es[t].result)
  {
    var id, init := es[t].id, es[..t];
    assert Reports(es[t], id);
    var c :| 0 <= c < |init| && Asks(init[c], Query(id)) && Answers(es[t].result, init[c].kind);
    forall k | c < k < t ensures !Touches(init[k], Query(id)) {
      assert init[k] == es[k] && init[c] == es[c];
      assert !Reports(es[k], id);
    }
    assert OpenSince(init, c, Query(id));
  }

  /** In such a run no Kademlia handler ever reports a missing channel. */
  lemma NoChannelIsMissing(es: seq<Event>, t: nat)
    requires FreshSlots(es) && OneResultPerQuery(es) && t < |es|
    requires es[t].Progress? && Run(es[..t]).running
    ensures ErrorOf(Run(es[..t]), es[t]) != Some(InvalidChannel)
  {
    hide OneResultPerQuery;
    if es[t].result != Unhandled && es[t].result != GetRecord {
      FirstResultHasChannel(es, t);
      InvalidChannelExactly(es[..t], es[t]);
    }
  }

  /** A get-record query may report any number of results: the first is delivered and stays the only
      delivery of its command. */
  lemma GetDeliversOnlyFirst(es: seq<Event>, c: int, e: Event, more: seq<Event>)
    requires FreshSlots(es) && Run(es).running && FreshSenders(es + [e] + more)
    requires e.Progress? && e.result == GetRecord && e.waiting && OpenSince(es, c, Query(e.id)) && es[c].kind == Get
    ensures var d := Delivery(es[c].sender, Get, Query(e.id), e.status == Found, e.body);
      Run(es + [e]).running && Run(es + [e]).log == Run(es).log + [d]
      && forall k :: 0 <= k < |Run(es + [e] + more).log| && Run(es + [e] + more).log[k].sender == es[c].sender ==>
           Run(es + [e] + more).log[k] == d
  {
    TablesHoldOpenCommands(es, Query(e.id));
    assert (es + [e])[..|es|] == es;
    assert Run(es + [e]) == Step(Run(es), e);
    DeliveriesAreFinal(es + [e], more);
    EveryRunIsSafe(es + [e] + more);
    hide Step, Run;
    var log, k0 := Run(es + [e] + more).log, |Run(es).log|;
    assert log[k0] == Run(es + [e]).log[k0];
  }

  // ----- the program -----

  class EventLoop {
    var queries: map<nat, Pending>
    var requests: map<nat, Pending>
    var running: bool
    ghost var log: seq<Delivery>
    ghost var dropped: set<Sender>
    ghost var issued: map<Sender, Ticket>

    ghost function Value(): State
      reads this
    {
      State(queries, requests, running, log, dropped, issued)
    }

    constructor ()
      ensures Value() == Start
    {
      queries, requests, running, log, dropped, issued := map[], map[], true, [], {}, map[];
    }

    /** `Sender::send`: fails when the receiver is gone. */
    method Send(p: Pending, slot: Slot, ok: bool, body: nat, waiting: bool) returns (error: Option<Stop>)
      modifies this
      ensures Value() == Delivered(old(Value()), p, slot, ok, body, waiting)
      ensures error == if waiting then None else Some(SendFailed)
    {
      if waiting {
        log := log + [Delivery(p.sender, p.kind, slot, ok, body)];
        error := None;
      } else {
        dropped := dropped + {p.sender};
        running := false;
        error := Some(SendFailed);
      }
    }

    /** A sender that goes out of scope. */
    ghost method Drop(p: Option<Pending>)
      modifies this`dropped
      ensures dropped == if p.Some? then old(dropped) + {p.value.sender} else old(dropped)
    {
      if p.Some? {
        dropped := dropped + {p.value.sender};
      }
    }

    method TakeQuery(id: nat) returns (p: Option<Pending>)
      modifies this`queries
      ensures Value() == Removed(old(Value()), Query(id)) && p == Lookup(old(Value()), Query(id))
    {
      p := if id in queries then Some(queries[id]) else None;
      queries := queries - {id};
    }

    /** The controller's commands: an early error drops the new sender. */
    method HandleCommand(kind: Kind, sender: Sender, waiting: bool, refused: bool, id: nat) returns (error: Option<Stop>)
      requires running
      modifies this
      ensures Value() == Step(old(Value()), Command(kind, sender, waiting, refused, id))
      ensures error == ErrorOf(old(Value()), Command(kind, sender, waiting, refused, id))
    {
      issued := issued[sender := Ticket(SlotOf(kind, id), kind)];
      if !waiting {
        Drop(Some(Pending(kind, sender)));
        running := false;
        return Some(CallerGone);
      }
      if refused && (kind == Put || kind == StartProviding) {
        Drop(Some(Pending(kind, sender)));
        running := false;
        return Some(Refused);
      }
      if kind == Verification {
        Drop(if id in requests then Some(requests[id]) else None);
        requests := requests[id := Pending(kind, sender)];
      } else {
        Drop(if id in queries then Some(queries[id]) else None);
        queries := queries[id := Pending(kind, sender)];
      }
      error := None;
    }

    /** `handle_get_record`: a missing channel is not an error. */
    method HandleGetRecord(id: nat, status: Status, body: nat, waiting: bool) returns (error: Option<Stop>)
      requires running
      modifies this
      ensures Value() == Step(old(Value()), Progress(id, GetRecord, status, body, waiting))
      ensures error == ErrorOf(old(Value()), Progress(id, GetRecord, status, body, waiting))
    {
      var p := TakeQuery(id);
      if p.None? || p.value.kind != Get {
        Drop(p);
        return None;
      }
      match status {
        case Found => error := Send(p.value, Query(id), true, body, waiting);
        case OtherOk => error := Send(p.value, Query(id), false, body, waiting);
        case Failed => error := Send(p.value, Query(id), false, body, waiting);
      }
    }

    /** `handle_put_record`: serves both local and remote puts and forwards failures. */
    method HandlePutRecord(id: nat, status: Status, body: nat, waiting: bool) returns (error: Option<Stop>)
      requires running
      modifies this
      ensures Value() == Step(old(Value()), Progress(id, PutRecord, status, body, waiting))
      ensures error == ErrorOf(old(Value()), Progress(id, PutRecord, status, body, waiting))
    {
      var p := TakeQuery(id);
      if p.None? || (p.value.kind != Put && p.value.kind != PutTo) {
        Drop(p);
        running := false;
        return Some(InvalidChannel);
      }
      error := Send(p.value, Query(id), status != Failed, body, waiting);
    }

    /** `handle_get_providers`: a failed query is an error of the loop and its sender is dropped. */
    method HandleGetProviders(id: nat, status: Status, body: nat, waiting: bool) returns (error: Option<Stop>)
      requires running
      modifies this
      ensures Value() == Step(old(Value()), Progress(id, Providers, status, body, waiting))
      ensures error == ErrorOf(old(Value()), Progress(id, Providers, status, body, waiting))
    {
      var p := TakeQuery(id);
      if p.None? || p.value.kind != GetProviders {
        Drop(p);
        running := false;
        return Some(InvalidChannel);
      }
      if status == Failed {
        Drop(p);
        running := false;
        return Some(QueryFailed);
      }
      error := Send(p.value, Query(id), status == Found, body, waiting);
    }

    /** `handle_get_closest_peers`: as for providers, but every answer is a success. */
    method HandleClosestPeers(id: nat, status: Status, body: nat, waiting: bool) returns (error: Option<Stop>)
      requires running
      modifies this
      ensures Value() == Step(old(Value()), Progress(id, Closest, status, body, waiting))
      ensures error == ErrorOf(old(Value()), Progress(id, Closest, status, body, waiting))
    {
      var p := TakeQuery(id);
      if p.None? || p.value.kind != ClosestPeers {
        Drop(p);
        running := false;
        return Some(InvalidChannel);
      }
      if status == Failed {
        Drop(p);
        running := false;
        return Some(QueryFailed);
      }
      error := Send(p.value, Query(id), true, body, waiting);
    }

    /** `handle_start_providing` */
    method HandleStartProviding(id: nat, status: Status, body: nat, waiting: bool) returns (error: Option<Stop>)
      requires running
      modifies this
      ensures Value() == Step(old(Value()), Progress(id, Providing, status, body, waiting))
      ensures error == ErrorOf(old(Value()), Progress(id, Providing, status, body, waiting))
    {
      var p := TakeQuery(id);
      if p.None? || p.value.kind != StartProviding {
        Drop(p);
        running := false;
        return Some(InvalidChannel);
      }
      if status == Failed {
        Drop(p);
        running := false;
        return Some(QueryFailed);
      }
      error := Send(p.value, Query(id), true, body, waiting);
    }

    /** `handle_reqres_message_response` and the two failure handlers. */
    method HandleReply(id: nat, ok: bool, body: nat, waiting: bool) returns (error: Option<Stop>)
      requires running
      modifies this
      ensures Value() == Step(old(Value()), Reply(id, ok, body, waiting))
      ensures error == ErrorOf(old(Value()), Reply(id, ok, body, waiting))
    {
      var p := if id in requests then Some(requests[id]) else None;
      requests := requests - {id};
      if p.None? || p.value.kind != Verification {
        Drop(p);
        running := false;
        return Some(InvalidChannel);
      }
      error := Send(p.value, Request(id), ok, body, waiting);
    }

    /** The loop: handles events until one of them is an error. */
    method Serve(events: seq<Event>) returns (handled: nat)
      requires Value() == Start
      modifies this
      ensures handled <= |events| && Value() == Run(events[..handled]) == Run(events)
      ensures running ==> handled == |events|
    {
      handled := 0;
      while handled < |events| && running
        invariant handled <= |events| && Value() == Run(events[..handled])
        decreases |events| - handled
      {
        hide Step, ErrorOf, Run;
        RunNext(events, handled);
        var e := events[handled];
        var error := Dispatch(e);
        handled := handled + 1;
      }
      if running {
        assert events[..handled] == events;
      } else {
        StaysStopped(events[..handled], events[handled..]);
        assert events[..handled] + events[handled..] == events;
      }
    }

    method Dispatch(e: Event) returns (error: Option<Stop>)
      requires running
      modifies this
      ensures Value() == Step(old(Value()), e) && error == ErrorOf(old(Value()), e)
    {
      match e
      case Command(kind, sender, waiting, refused, id) => error := HandleCommand(kind, sender, waiting, refused, id);
      case ControllerGone =>
        running := false;
        error := Some(MissingInstruction);
      case Progress(id, result, status, body, waiting) =>
        match result {
          case GetRecord => error := HandleGetRecord(id, status, body, waiting);
          case PutRecord => error := HandlePutRecord(id, status, body, waiting);
          case Providers => error := HandleGetProviders(id, status, body, waiting);
          case Closest => error := HandleClosestPeers(id, status, body, waiting);
          case Providing => error := HandleStartProviding(id, status, body, waiting);
          case Unhandled => error := None;
        }
      case Reply(id, ok, body, waiting) => error := HandleReply(id, ok, body, waiting);
      case Inbound(sent) =>
        running := sent;
        error := if sent then None else Some(ResponseFailed);
      case Ignored => error := None;
    }
  }

  lemma RunNext(es: seq<Event>, k: nat)
    requires k < |es|
    ensures Run(es[..k + 1]) == Step(Run(es[..k]), es[k])
  {
    hide Step;
    assert es[..k + 1][..k] == es[..k];
  }

  lemma {:induction false} StaysStopped(es: seq<Event>, more: seq<Event>)
    requires !Run(es).running
    ensures Run(es + more) == Run(es)
  {
    if more == [] {
      assert es + more == es;
    } else {
      StaysStopped(es, more[..|more| - 1]);
      assert (es + more)[..|es + more| - 1] == es + more[..|more| - 1];
      StepOnlyAppends(Run(es), more[|more| - 1]);
    }
  }
}
