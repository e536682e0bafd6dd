/**
 * Who may acknowledge what, and in which order.
 *
 * A received QoS 1 PUBLISH is owed one acknowledgement. Until it is sent, the right to give it is held by a token, by
 * a request in the channel, or by an entry that is ready: `src/client/session.rs` and
 * `src/client/token/acknowledgement.rs`.
 */
module AckOrder {
  import opened Wrappers
  import opened Packets
  import opened PkidPool
  import opened OrderedMap
  import opened SessionState

  // --- The loop of next_outgoing_request, without its polling ---

  datatype Verdict = Answer(ack: AckRequest) | Stray | Empty

  /** Routes requests to their entries until the first entry is ready. */
  function Settle(acks: seq<AckRequest>, tracker: Tracker, epoch: nat): (seq<AckRequest>, Tracker, Verdict)
    decreases |acks|, |tracker|
  {
    if HeadReady(tracker) then
      var ack := tracker[0].value.value;
      if ack.epoch == epoch then (acks, tracker[1..], Answer(ack)) else Settle(acks, tracker[1..], epoch)
    else if acks == [] then ([], tracker, Empty)
    else if acks[0].epoch != epoch then Settle(acks[1..], tracker, epoch)
    else if acks[0].puback.id !in Ids(tracker) then (acks[1..], tracker, Stray)
    else Settle(acks[1..], Insert(tracker, acks[0].puback.id, Some(acks[0])), epoch)
  }

  function SkipStale(tracker: Tracker, epoch: nat): Tracker {
    if HeadReady(tracker) && tracker[0].value.value.epoch != epoch then SkipStale(tracker[1..], epoch) else tracker
  }

  /** The next request in one pass: a ready acknowledgement, a disconnect, an acknowledgement, anything else. */
  function NextInOnePass(s: State, due: bool): (State, Next)
  {
    var tracker := SkipStale(s.tracker, s.link.epoch);
    if HeadReady(tracker) then (s.(tracker := tracker[1..]), Chosen(ToAcknowledge(tracker[0].value.value)))
    else if s.ch.disconnect.Requested? then
      (s.(tracker := tracker, ch := s.ch.(disconnect := NoChannel)), Chosen(ToDisconnect(s.ch.disconnect.disconnect)))
    else
      var (acks, settled, verdict) := Settle(s.ch.acks, tracker, s.link.epoch);
      var ch := s.ch.(disconnect := CloseIfDropped(s.ch.disconnect), acks := acks);
      match verdict
      case Answer(ack) => (s.(tracker := settled, ch := ch), Chosen(ToAcknowledge(ack)))
      case Stray => (s.(tracker := settled, ch := ch), Forged)
      case Empty =>
        var (rest, pool, request) := PollRest(ch, s.pool, due && s.link.keepAlive.Every?);
        (s.(tracker := settled, ch := rest, pool := pool), if request.Some? then Chosen(request.value) else Idle)
  }

  lemma {:induction false} SettleSkipsStale(acks: seq<AckRequest>, tracker: Tracker, epoch: nat)
    ensures Settle(acks, tracker, epoch) == Settle(acks, SkipStale(tracker, epoch), epoch)
    decreases |tracker|
  {
    if HeadReady(tracker) && tracker[0].value.value.epoch != epoch {
      SettleSkipsStale(acks, tracker[1..], epoch);
    }
  }

  lemma {:induction false} NotStaleNow(tracker: Tracker, epoch: nat)
    ensures var rest := SkipStale(tracker, epoch); HeadReady(rest) ==> rest[0].value.value.epoch == epoch
  {
    if HeadReady(tracker) && tracker[0].value.value.epoch != epoch {
      NotStaleNow(tracker[1..], epoch);
    }
  }

  lemma RestIsNoAck(ch: Channels, pool: Pool, due: bool)
    ensures var r := PollRest(ch, pool, due).2; !(r.Some? && r.value.ToAcknowledge?)
    ensures PollRest(ch, pool, due).0.acks == ch.acks
  {
  }

  /** The loop is the one pass. */
  lemma {:induction false} LoopIsOnePass(s: State, due: bool)
    ensures NextRequest(s, due) == NextInOnePass(s, due)
    decreases |s.ch.acks|, |s.tracker|, 1
  {
    hide PollRest, Find, Insert, Ids;
    if HeadReady(s.tracker) {
      if s.tracker[0].value.value.epoch != s.link.epoch {
        LoopIsOnePass(s.(tracker := s.tracker[1..]), due);
      }
    } else if !s.ch.disconnect.Requested? && s.ch.acks != [] {
      RouteIsOnePass(s, due);
    } else {
      RestIsNoAck(s.ch.(disconnect := CloseIfDropped(s.ch.disconnect)), s.pool, due && s.link.keepAlive.Every?);
    }
  }

  lemma {:induction false} RouteIsOnePass(s: State, due: bool)
    requires !HeadReady(s.tracker) && !s.ch.disconnect.Requested? && s.ch.acks != []
    ensures NextRequest(s, due) == NextInOnePass(s, due)
    decreases |s.ch.acks|, |s.tracker|, 0
  {
    hide PollRest, Find, Insert, Ids;
    var ack := s.ch.acks[0];
    var polled := s.(ch := s.ch.(disconnect := CloseIfDropped(s.ch.disconnect), acks := s.ch.acks[1..]));
    if ack.epoch != s.link.epoch {
      LoopIsOnePass(polled, due);
    } else if ack.puback.id in Ids(s.tracker) {
      var routed := polled.(tracker := Insert(s.tracker, ack.puback.id, Some(ack)));
      LoopIsOnePass(routed, due);
      SettleSkipsStale(routed.ch.acks, routed.tracker, s.link.epoch);
      NotStaleNow(routed.tracker, s.link.epoch);
    }
  }

  // --- Ownership ---

  /** The token through which a request was made. */
  function ClaimOf(a: AckRequest): Token {
    Token(a.notifier, a.puback.id, a.epoch)
  }

  function Claims(acks: seq<AckRequest>): (r: seq<Token>)
    ensures |r| == |acks|
  {
    seq(|acks|, i requires 0 <= i < |acks| => ClaimOf(acks[i]))
  }

  /** The claims of the entries that are ready. */
  function ReadyClaims(tracker: Tracker): multiset<Token> {
    if tracker == [] then multiset{}
    else (if HeadReady(tracker) then multiset{ClaimOf(tracker[0].value.value)} else multiset{}) + ReadyClaims(tracker[1..])
  }

  /** How often the right to answer for `x` is held: by tokens, by requests in the channel, by entries that are ready. */
  function Owners(tokens: multiset<Token>, acks: seq<AckRequest>, tracker: Tracker, x: Token): nat {
    tokens[x] + multiset(Claims(acks))[x] + ReadyClaims(tracker)[x]
  }

  /** The entries are the PUBLISHes that wait for their acknowledgement, and each is owned exactly once. */
  ghost predicate Owned(tokens: multiset<Token>, acks: seq<AckRequest>, tracker: Tracker, epoch: nat, pending: seq<Token>) {
    && |tracker| == |pending| && Distinct(tracker)
    && (forall j :: 0 <= j < |tracker| ==> tracker[j].id == pending[j].id && pending[j].epoch == epoch)
    && (forall j :: 0 <= j < |tracker| && tracker[j].value.Some? ==>
      tracker[j].value.value.puback.id == tracker[j].id && tracker[j].value.value.epoch == epoch)
    && forall x: Token :: x.epoch == epoch ==> Owners(tokens, acks, tracker, x) == multiset(pending)[x]
  }

  lemma {:induction false} ReadySet(tracker: Tracker, j: nat, a: AckRequest)
    requires j < |tracker| && tracker[j].value.None?
    ensures ReadyClaims(tracker[j := Entry(tracker[j].id, Some(a))]) == ReadyClaims(tracker) + multiset{ClaimOf(a)}
  {
    var after := tracker[j := Entry(tracker[j].id, Some(a))];
    if j == 0 {
      assert after[1..] == tracker[1..];
    } else {
      ReadySet(tracker[1..], j - 1, a);
      assert after[1..] == tracker[1..][j - 1 := Entry(tracker[j].id, Some(a))];
    }
  }

  lemma {:induction false} ReadyAppend(tracker: Tracker, id: PacketId)
    ensures ReadyClaims(tracker + [Entry(id, None)]) == ReadyClaims(tracker)
  {
    var after := tracker + [Entry(id, None)];
    if tracker == [] {
      assert after[1..] == [];
    } else {
      ReadyAppend(tracker[1..], id);
      assert after[1..] == tracker[1..] + [Entry(id, None)];
    }
  }

  lemma {:induction false} ReadyHas(tracker: Tracker, j: nat)
    requires j < |tracker| && tracker[j].value.Some?
    ensures ReadyClaims(tracker)[ClaimOf(tracker[j].value.value)] > 0
  {
    if j > 0 {
      ReadyHas(tracker[1..], j - 1);
    }
  }

  /** Waiting PUBLISHes have different identifiers, so that each occurs once. */
  lemma {:induction false} OnceEach(pending: seq<Token>, tracker: Tracker, j: nat)
    requires |tracker| == |pending| && Distinct(tracker) && j < |pending|
    requires forall i :: 0 <= i < |tracker| ==> tracker[i].id == pending[i].id
    ensures multiset(pending)[pending[j]] == 1
  {
    var a, b := pending[..j], pending[j + 1..];
    assert pending == a + [pending[j]] + b;
    assert pending[j] !in a && pending[j] !in b;
  }

  /** What is ready at an entry answers for that entry's PUBLISH. */
  lemma ReadyIsOwn(tokens: multiset<Token>, acks: seq<AckRequest>, tracker: Tracker, epoch: nat, pending: seq<Token>, j: nat)
    requires Owned(tokens, acks, tracker, epoch, pending) && j < |tracker| && tracker[j].value.Some?
    ensures ClaimOf(tracker[j].value.value) == pending[j]
  {
    var y := ClaimOf(tracker[j].value.value);
    ReadyHas(tracker, j);
    assert Owners(tokens, acks, tracker, y) > 0;
    assert y in multiset(pending);
    var i :| 0 <= i < |pending| && pending[i] == y;
    assert tracker[i].id == tracker[j].id;
  }

  /** A request of this connection is for the entry with its identifier, which is not ready yet. */
  lemma RequestIsAwaited(tokens: multiset<Token>, acks: seq<AckRequest>, tracker: Tracker, epoch: nat, pending: seq<Token>, k: nat)
    requires Owned(tokens, acks, tracker, epoch, pending) && k < |acks| && acks[k].epoch == epoch
    ensures var j := Find(tracker, acks[k].puback.id);
      j < |tracker| && j < |pending| && pending[j] == ClaimOf(acks[k]) && tracker[j].value.None?
  {
    var x := ClaimOf(acks[k]);
    assert Claims(acks)[k] == x;
    assert Owners(tokens, acks, tracker, x) > 0;
    assert x in multiset(pending);
    var j :| 0 <= j < |pending| && pending[j] == x;
    OnceEach(pending, tracker, j);
    if tracker[j].value.Some? {
      ReadyIsOwn(tokens, acks, tracker, epoch, pending, j);
      ReadyHas(tracker, j);
    }
    assert Find(tracker, tracker[j].id) == j;
  }

  lemma ClaimsTail(acks: seq<AckRequest>)
    requires acks != []
    ensures multiset(Claims(acks)) == multiset{ClaimOf(acks[0])} + multiset(Claims(acks[1..]))
  {
    assert Claims(acks) == [ClaimOf(acks[0])] + Claims(acks[1..]);
  }

  lemma DropKeepsOwned(tokens: multiset<Token>, acks: seq<AckRequest>, tracker: Tracker, epoch: nat, pending: seq<Token>)
    requires Owned(tokens, acks, tracker, epoch, pending) && acks != [] && acks[0].epoch != epoch
    ensures Owned(tokens, acks[1..], tracker, epoch, pending)
  {
    ClaimsTail(acks);
    forall x: Token | x.epoch == epoch
      ensures Owners(tokens, acks[1..], tracker, x) == multiset(pending)[x]
    {
      assert Owners(tokens, acks, tracker, x) == multiset(pending)[x];
    }
  }

  lemma SetKeepsOwned(tokens: multiset<Token>, acks: seq<AckRequest>, tracker: Tracker, epoch: nat, pending: seq<Token>, j: nat)
    requires Owned(tokens, acks, tracker, epoch, pending) && acks != []
    requires j < |tracker| && j < |pending| && tracker[j].value.None? && pending[j] == ClaimOf(acks[0])
    ensures Owned(tokens, acks[1..], tracker[j := Entry(tracker[j].id, Some(acks[0]))], epoch, pending)
  {
    hide Claims, ReadyClaims;
    var after := tracker[j := Entry(tracker[j].id, Some(acks[0]))];
    ClaimsTail(acks);
    ReadySet(tracker, j, acks[0]);
    forall x: Token | x.epoch == epoch
      ensures Owners(tokens, acks[1..], after, x) == multiset(pending)[x]
    {
      assert Owners(tokens, acks, tracker, x) == multiset(pending)[x];
    }
  }

  /** Moving a request from the channel to its entry keeps every PUBLISH owned once. */
  lemma RouteKeepsOwned(tokens: multiset<Token>, acks: seq<AckRequest>, tracker: Tracker, epoch: nat, pending: seq<Token>)
    requires Owned(tokens, acks, tracker, epoch, pending) && acks != [] && acks[0].epoch == epoch
    ensures acks[0].puback.id in Ids(tracker)
    ensures Owned(tokens, acks[1..], Insert(tracker, acks[0].puback.id, Some(acks[0])), epoch, pending)
  {
    hide Owned;
    RequestIsAwaited(tokens, acks, tracker, epoch, pending, 0);
    var j := Find(tracker, acks[0].puback.id);
    assert tracker[j].id == acks[0].puback.id;
    SetKeepsOwned(tokens, acks, tracker, epoch, pending, j);
  }

  /** A ready first entry answers for the first waiting PUBLISH. */
  lemma PopKeepsOwned(tokens: multiset<Token>, acks: seq<AckRequest>, tracker: Tracker, epoch: nat, pending: seq<Token>)
    requires Owned(tokens, acks, tracker, epoch, pending) && HeadReady(tracker)
    ensures ClaimOf(tracker[0].value.value) == pending[0]
    ensures Owned(tokens, acks, tracker[1..], epoch, pending[1..])
  {
    ReadyIsOwn(tokens, acks, tracker, epoch, pending, 0);
    assert pending == [pending[0]] + pending[1..];
    forall x: Token | x.epoch == epoch
      ensures Owners(tokens, acks, tracker[1..], x) == multiset(pending[1..])[x]
    {
      assert Owners(tokens, acks, tracker, x) == multiset(pending)[x];
    }
  }

  /** The answer was given through its token: `answers` maps tokens to what the application said. */
  predicate Recorded(answers: map<nat, PubAck>, a: AckRequest) {
    a.notifier in answers && answers[a.notifier] == a.puback
  }

  ghost predicate AllRecorded(answers: map<nat, PubAck>, acks: seq<AckRequest>, tracker: Tracker) {
    && (forall a :: a in acks ==> Recorded(answers, a))
    && forall j :: 0 <= j < |tracker| && tracker[j].value.Some? ==> Recorded(answers, tracker[j].value.value)
  }

  /**
   * No request is stray, and the acknowledgement that comes out is what the application answered to the first
   * PUBLISH that waits.
   */
  lemma {:induction false} SettleAnswersFirst(
    tokens: multiset<Token>, acks: seq<AckRequest>, tracker: Tracker, epoch: nat, pending: seq<Token>, answers: map<nat, PubAck>)
    requires Owned(tokens, acks, tracker, epoch, pending) && AllRecorded(answers, acks, tracker)
    ensures var (acks', tracker', v) := Settle(acks, tracker, epoch);
      && (forall a :: a in acks' ==> a in acks)
      && AllRecorded(answers, acks', tracker')
      && match v
         case Stray => false
         case Empty => acks' == [] && !HeadReady(tracker') && Owned(tokens, [], tracker', epoch, pending)
         case Answer(a) =>
           && pending != [] && ClaimOf(a) == pending[0] && Recorded(answers, a)
           && Owned(tokens, acks', tracker', epoch, pending[1..])
    decreases |acks|, |tracker|
  {
    if HeadReady(tracker) {
      PopKeepsOwned(tokens, acks, tracker, epoch, pending);
    } else if acks != [] {
      if acks[0].epoch == epoch {
        RouteKeepsOwned(tokens, acks, tracker, epoch, pending);
      } else {
        DropKeepsOwned(tokens, acks, tracker, epoch, pending);
      }
      var routed := if acks[0].epoch == epoch then Insert(tracker, acks[0].puback.id, Some(acks[0])) else tracker;
      SettleAnswersFirst(tokens, acks[1..], routed, epoch, pending, answers);
    }
  }

  lemma {:induction false} NotReady(tracker: Tracker, x: Token)
    requires forall j :: 0 <= j < |tracker| && tracker[j].value.Some? ==> ClaimOf(tracker[j].value.value) != x
    ensures ReadyClaims(tracker)[x] == 0
  {
    if tracker != [] {
      NotReady(tracker[1..], x);
    }
  }

  /** An acknowledgement comes out exactly if the first waiting PUBLISH is not with a token any more. */
  lemma SettleMakesProgress(
    tokens: multiset<Token>, acks: seq<AckRequest>, tracker: Tracker, epoch: nat, pending: seq<Token>, answers: map<nat, PubAck>)
    requires Owned(tokens, acks, tracker, epoch, pending) && AllRecorded(answers, acks, tracker)
    requires pending != []
    ensures Settle(acks, tracker, epoch).2.Answer? <==> pending[0] !in tokens
  {
    SettleAnswersFirst(tokens, acks, tracker, epoch, pending, answers);
    var (left, settled, v) := Settle(acks, tracker, epoch);
    OnceEach(pending, tracker, 0);
    assert pending == [pending[0]] + pending[1..];
    if v.Answer? {
      assert Owners(tokens, left, settled, pending[0]) == 0;
    } else {
      forall j | 0 <= j < |settled| && settled[j].value.Some?
        ensures ClaimOf(settled[j].value.value) != pending[0]
      {
        assert settled[0].id == pending[0].id;
      }
      NotReady(settled, pending[0]);
      assert Owners(tokens, [], settled, pending[0]) == 1;
    }
  }
}
