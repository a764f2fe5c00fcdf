/** The outbox: envelopes are journaled before they are published and the journal is truncated
    after a success. What it holds, what recovery guarantees, and exactly when it loses. */
module Outbox {
  import opened Types

  datatype Envelope = Envelope(id: Id, isTrade: bool)

  /** The journal file and the two targets: the durable event stream and the live channel. */
  datatype Desk = Desk(journal: seq<Envelope>, stream: seq<Envelope>, channel: seq<Envelope>)

  /** How one append can go: refused, on disk with an error reported, or done. */
  datatype Append = NotWritten | WrittenUnsynced | Written

  /** How one call to a target can go; a lost reply reports an error although it arrived. */
  datatype Delivery = Undelivered | ReplyLost | Delivered

  /** What goes wrong during one emission. A crash is the failure of everything after it. */
  datatype Faults = Faults(append: Append, stream: Delivery, channel: Delivery, truncates: bool)

  function Arrives(target: seq<Envelope>, e: Envelope, d: Delivery): seq<Envelope> {
    if d.Undelivered? then target else target + [e]
  }

  // ---------------------------------------------------------------- one emission

  /** Did both targets confirm? Only then is the journal truncated. */
  predicate Confirmed(broadcast: bool, f: Faults) {
    f.append.Written? && f.stream.Delivered? && (broadcast ==> f.channel.Delivered?)
  }

  predicate Truncates(broadcast: bool, f: Faults) { Confirmed(broadcast, f) && f.truncates }

  function JournalAfter(d: Desk, e: Envelope, broadcast: bool, f: Faults): seq<Envelope> {
    if f.append.NotWritten? then d.journal
    else if Truncates(broadcast, f) then []
    else d.journal + [e]
  }

  function Emit(d: Desk, e: Envelope, broadcast: bool, f: Faults): Desk {
    var streamed := f.append.Written?;
    var aired := streamed && f.stream.Delivered? && broadcast;
    Desk(JournalAfter(d, e, broadcast, f),
         if streamed then Arrives(d.stream, e, f.stream) else d.stream,
         if aired then Arrives(d.channel, e, f.channel) else d.channel)
  }

  // ---------------------------------------------------------------- recovery

  /** Republishes entry after entry; `faults(i)` is what happens to the i-th. */
  function Republish(d: Desk, lines: seq<Envelope>, faults: nat -> Faults, i: nat): (r: (Desk, bool))
    requires i <= |lines|
    ensures r.0.journal == d.journal
    decreases |lines| - i
  {
    if i == |lines| then (d, true)
    else
      var e, f := lines[i], faults(i);
      var streamed := d.(stream := Arrives(d.stream, e, f.stream));
      if !f.stream.Delivered? then (streamed, false)
      else if !e.isTrade then Republish(streamed, lines, faults, i + 1)
      else
        var aired := streamed.(channel := Arrives(streamed.channel, e, f.channel));
        if !f.channel.Delivered? then (aired, false) else Republish(aired, lines, faults, i + 1)
  }

  /** Recovery at start-up; the journal is truncated once everything was confirmed. */
  function Recover(d: Desk, faults: nat -> Faults, truncates: bool): Desk {
    var (after, ok) := Republish(d, d.journal, faults, 0);
    if ok && truncates then after.(journal := []) else after
  }

  lemma OneFurther(stream: seq<Envelope>, lines: seq<Envelope>, i: nat, k: nat)
    requires i < k <= |lines|
    ensures stream + [lines[i]] + lines[i + 1..k] == stream + lines[i..k]
  {
    assert [lines[i]] + lines[i + 1..k] == lines[i..k];
  }

  /** An envelope is kept if it is on the stream or still in the journal. */
  predicate Kept(d: Desk, e: Envelope) { e in d.stream || e in d.journal }

  // ---------------------------------------------------------------- how far recovery gets

  /** Both targets confirm the republished entry; only trades go to the channel. */
  predicate GoesOut(e: Envelope, f: Faults) { f.stream.Delivered? && (e.isTrade ==> f.channel.Delivered?) }

  ghost predicate AllGoOut(lines: seq<Envelope>, faults: nat -> Faults) {
    forall j :: 0 <= j < |lines| ==> GoesOut(lines[j], faults(j))
  }

  function Trades(es: seq<Envelope>): seq<Envelope> {
    if es == [] then []
    else
      var last := es[|es| - 1];
      Trades(es[..|es| - 1]) + if last.isTrade then [last] else []
  }

  /** Entry `k` is the first one from `i` on that some target does not confirm, if there is one. */
  ghost predicate StopsAt(lines: seq<Envelope>, faults: nat -> Faults, i: nat, k: nat) {
    && i <= k <= |lines|
    && (forall j :: i <= j < k ==> GoesOut(lines[j], faults(j)))
    && (k < |lines| ==> !GoesOut(lines[k], faults(k)))
  }

  lemma {:induction false} SomewhereStops(lines: seq<Envelope>, faults: nat -> Faults, i: nat) returns (k: nat)
    requires i <= |lines|
    ensures StopsAt(lines, faults, i, k)
    decreases |lines| - i
  {
    k := i;
    if i < |lines| && GoesOut(lines[i], faults(i)) {
      k := SomewhereStops(lines, faults, i + 1);
    }
  }

  /** What the entry that stops recovery leaves behind: on the stream if the call arrived all the
      same, on the channel only if the stream confirmed it. */
  function LastOnStream(lines: seq<Envelope>, faults: nat -> Faults, k: nat): seq<Envelope> {
    if k < |lines| && !faults(k).stream.Undelivered? then [lines[k]] else []
  }

  function LastOnChannel(lines: seq<Envelope>, faults: nat -> Faults, k: nat): seq<Envelope> {
    if k < |lines| && lines[k].isTrade && faults(k).stream.Delivered? && faults(k).channel.ReplyLost? then [lines[k]]
    else []
  }

  lemma {:induction false} RepublishReaches(d: Desk, lines: seq<Envelope>, faults: nat -> Faults, i: nat, k: nat)
    requires StopsAt(lines, faults, i, k)
    ensures var (after, ok) := Republish(d, lines, faults, i);
            && after.stream == d.stream + lines[i..k] + LastOnStream(lines, faults, k)
            && after.channel == d.channel + Trades(lines[i..k]) + LastOnChannel(lines, faults, k)
            && (ok <==> k == |lines|)
    decreases |lines| - i
  {
    hide LastOnStream;
    hide LastOnChannel;
    hide Trades;
    if i == k {
      RepublishStops(d, lines, faults, k);
    } else {
      RepublishSends(d, lines, faults, i);
      hide Republish;
      RepublishReaches(Sent(d, lines[i]), lines, faults, i + 1, k);
      OneFurther(d.stream, lines, i, k);
      TradesFurther(d.channel, lines, i, k);
    }
  }

  /** The desk after an entry went out. */
  function Sent(d: Desk, e: Envelope): Desk { Desk(d.journal, d.stream + [e], d.channel + Trades([e])) }

  lemma RepublishSends(d: Desk, lines: seq<Envelope>, faults: nat -> Faults, i: nat)
    requires i < |lines| && GoesOut(lines[i], faults(i))
    ensures Republish(d, lines, faults, i) == Republish(Sent(d, lines[i]), lines, faults, i + 1)
  {
    var e := lines[i];
    assert Trades([e]) == if e.isTrade then [e] else [];
    assert d.channel + [] == d.channel;
  }

  lemma RepublishStops(d: Desk, lines: seq<Envelope>, faults: nat -> Faults, k: nat)
    requires StopsAt(lines, faults, k, k)
    ensures var (after, ok) := Republish(d, lines, faults, k);
            && after.stream == d.stream + lines[k..k] + LastOnStream(lines, faults, k)
            && after.channel == d.channel + Trades(lines[k..k]) + LastOnChannel(lines, faults, k)
            && (ok <==> k == |lines|)
  {
    assert lines[k..k] == [];
    assert d.stream + [] == d.stream;
    assert d.channel + [] == d.channel;
  }

  lemma TradesFurther(channel: seq<Envelope>, lines: seq<Envelope>, i: nat, k: nat)
    requires i < k <= |lines|
    ensures channel + Trades([lines[i]]) + Trades(lines[i + 1..k]) == channel + Trades(lines[i..k])
  {
    hide Trades;
    TradesFrom(lines, i, k);
  }

  lemma {:induction false} TradesFrom(lines: seq<Envelope>, i: nat, k: nat)
    requires i < k <= |lines|
    ensures Trades(lines[i..k]) == Trades([lines[i]]) + Trades(lines[i + 1..k])
    decreases k
  {
    if i + 1 < k {
      TradesFrom(lines, i, k - 1);
      assert lines[i..k][..k - i - 1] == lines[i..k - 1];
      assert lines[i + 1..k][..k - i - 2] == lines[i + 1..k - 1];
    } else {
      assert lines[i..k] == [lines[i]];
    }
  }

  /** Exactly what recovery does, whatever fails: every entry before the first that is not
      confirmed goes to the stream in order, the trades among them also to the channel, and
      nothing after it goes anywhere; the journal is emptied only if all entries went out. */
  lemma RecoverReaches(d: Desk, faults: nat -> Faults, truncates: bool, k: nat)
    requires StopsAt(d.journal, faults, 0, k)
    ensures var r := Recover(d, faults, truncates);
            && r.stream == d.stream + d.journal[..k] + LastOnStream(d.journal, faults, k)
            && r.channel == d.channel + Trades(d.journal[..k]) + LastOnChannel(d.journal, faults, k)
            && r.journal == if k == |d.journal| && truncates then [] else d.journal
  {
    RepublishReaches(d, d.journal, faults, 0, k);
    assert d.journal[0..k] == d.journal[..k];
  }

  /** Recovery that meets no fault publishes the whole journal, its trades also on the channel,
      and leaves the journal empty. */
  lemma RecoverPublishesAll(d: Desk, faults: nat -> Faults)
    requires AllGoOut(d.journal, faults)
    ensures Recover(d, faults, true) == Desk([], d.stream + d.journal, d.channel + Trades(d.journal))
  {
    RecoverReaches(d, faults, true, |d.journal|);
    assert d.journal[..|d.journal|] == d.journal;
    hide Recover;
  }

  /** Recovery loses nothing, whatever fails. It puts a prefix of the journal on the stream and
      the trades of all but possibly its last entry on the channel, and it empties the journal
      if and only if every entry went out and the truncation succeeded. */
  lemma RecoverIsSafe(d: Desk, faults: nat -> Faults, truncates: bool)
    ensures var r := Recover(d, faults, truncates);
            && (forall e :: Kept(d, e) ==> Kept(r, e))
            && (exists k :: 0 <= k <= |d.journal| && r.stream == d.stream + d.journal[..k])
            && (exists k: nat ::
                  StopsAt(d.journal, faults, 0, k)
                  && r.channel == d.channel + Trades(d.journal[..k]) + LastOnChannel(d.journal, faults, k))
            && (r.journal == d.journal || (r.journal == [] && r.stream == d.stream + d.journal))
            && (r.journal == [] <==> d.journal == [] || (truncates && AllGoOut(d.journal, faults)))
  {
    var k := SomewhereStops(d.journal, faults, 0);
    RecoverReaches(d, faults, truncates, k);
    hide Recover;
    var n := if k < |d.journal| && !faults(k).stream.Undelivered? then k + 1 else k;
    assert d.journal[..n] == d.journal[..k] + LastOnStream(d.journal, faults, k);
    assert d.journal[..|d.journal|] == d.journal;
    var r := Recover(d, faults, truncates);
    assert r.stream == d.stream + d.journal[..n];
  }

  // ---------------------------------------------------------------- exactly when it loses

  /** Everything the journal holds has also reached the stream. */
  predicate NothingPending(d: Desk) { forall e :: e in d.journal ==> e in d.stream }

  /** What happens at one desk: an emission, or recovery after a restart. */
  datatype Op =
    | Emission(envelope: Envelope, broadcast: bool, faults: Faults)
    | Recovery(outcomes: nat -> Faults, truncates: bool)

  function Act(d: Desk, op: Op): Desk {
    match op
    case Emission(e, broadcast, f) => Emit(d, e, broadcast, f)
    case Recovery(outcomes, truncates) => Recover(d, outcomes, truncates)
  }

  /** The desk, all envelopes ever appended to the journal, and how many of them there were when
      the journal was last truncated. */
  datatype Past = Past(desk: Desk, appended: seq<Envelope>, mark: nat)

  predicate Clears(d: Desk, op: Op) {
    match op
    case Emission(e, broadcast, f) => Truncates(broadcast, f)
    case Recovery(outcomes, truncates) => Republish(d, d.journal, outcomes, 0).1 && truncates
  }

  function Continue(past: Past, op: Op): Past {
    var appended := if op.Emission? && !op.faults.append.NotWritten? then past.appended + [op.envelope]
      else past.appended;
    Past(Act(past.desk, op), appended, if Clears(past.desk, op) then |appended| else past.mark)
  }

  const EMPTY := Past(Desk([], [], []), [], 0)

  function History(ops: seq<Op>): Past {
    if ops == [] then EMPTY else Continue(History(ops[..|ops| - 1]), ops[|ops| - 1])
  }

  /** The journal holds exactly the envelopes appended since it was last truncated. */
  lemma {:induction false} JournalIsRecent(ops: seq<Op>)
    ensures var past := History(ops);
            past.mark <= |past.appended| && past.desk.journal == past.appended[past.mark..]
  {
    if ops != [] {
      JournalIsRecent(ops[..|ops| - 1]);
    }
  }

  /** Envelopes are new when they are emitted. */
  ghost predicate Distinct(ops: seq<Op>) {
    forall i, j :: 0 <= i < j < |ops| && ops[i].Emission? && ops[j].Emission? ==> ops[i].envelope != ops[j].envelope
  }

  /** Whatever is on the stream or in the journal was emitted. */
  ghost predicate Known(ops: seq<Op>, e: Envelope) {
    exists i :: 0 <= i < |ops| && ops[i].Emission? && ops[i].envelope == e
  }

  ghost predicate AllKnown(ops: seq<Op>) {
    var past := History(ops);
    forall e :: e in past.appended || Kept(past.desk, e) ==> Known(ops, e)
  }

  lemma KnownLater(ops: seq<Op>, e: Envelope)
    requires ops != [] && Known(ops[..|ops| - 1], e)
    ensures Known(ops, e)
  {
    var i :| 0 <= i < |ops| - 1 && ops[i].Emission? && ops[i].envelope == e;
    assert ops[i].Emission? && ops[i].envelope == e;
  }

  /** Acting adds nothing but the emitted envelope. */
  lemma ActAddsOnlyOwn(d: Desk, op: Op, x: Envelope)
    requires Kept(Act(d, op), x)
    ensures Kept(d, x) || (op.Emission? && x == op.envelope)
  {
    if op.Recovery? {
      RecoverIsSafe(d, op.outcomes, op.truncates);
      hide Recover;
    }
  }

  lemma {:induction false} HistoryIsKnown(ops: seq<Op>)
    ensures AllKnown(ops)
  {
    if ops != [] {
      var before, last := ops[..|ops| - 1], ops[|ops| - 1];
      HistoryIsKnown(before);
      var past := History(before);
      forall e | e in History(ops).appended || Kept(History(ops).desk, e) ensures Known(ops, e) {
        if Kept(History(ops).desk, e) {
          ActAddsOnlyOwn(past.desk, last, e);
        }
        if e in past.appended || Kept(past.desk, e) {
          KnownLater(ops, e);
        } else {
          assert ops[|ops| - 1].Emission? && ops[|ops| - 1].envelope == e;
        }
      }
    }
  }

  /** Nothing appended has been lost. */
  ghost predicate AllKept(past: Past) { forall e :: e in past.appended ==> Kept(past.desk, e) }

  /** No emission truncates the journal while an earlier envelope is still pending in it. */
  ghost predicate NeverTruncatesPending(ops: seq<Op>) {
    ops == [] || (
      var before, last := ops[..|ops| - 1], ops[|ops| - 1];
      && NeverTruncatesPending(before)
      && (last.Emission? && Truncates(last.broadcast, last.faults) ==> NothingPending(History(before).desk)))
  }

  /** One emission of a new envelope keeps everything if and only if it does not truncate or
      nothing is pending. */
  lemma EmitKeepsIff(past: Past, op: Op)
    requires op.Emission? && op.envelope !in past.appended && !Kept(past.desk, op.envelope)
    requires past.mark <= |past.appended| && past.desk.journal == past.appended[past.mark..] && AllKept(past)
    ensures AllKept(Continue(past, op)) <==> (Truncates(op.broadcast, op.faults) ==> NothingPending(past.desk))
  {
    var next := Continue(past, op);
    if Truncates(op.broadcast, op.faults) && !NothingPending(past.desk) {
      var x :| x in past.desk.journal && x !in past.desk.stream;
      assert x in past.appended && x in next.appended && !Kept(next.desk, x);
    }
  }

  /** What is lost stays lost. */
  lemma LossIsForever(past: Past, op: Op)
    requires AllKept(Continue(past, op)) && (op.Emission? ==> op.envelope !in past.appended)
    ensures AllKept(past)
  {
    forall e | e in past.appended ensures Kept(past.desk, e) {
      assert e in Continue(past, op).appended;
      ActAddsOnlyOwn(past.desk, op, e);
    }
  }

  lemma RecoveryKeeps(past: Past, op: Op)
    requires op.Recovery? && AllKept(past)
    ensures AllKept(Continue(past, op))
  {
    RecoverIsSafe(past.desk, op.outcomes, op.truncates);
    hide Recover;
  }

  lemma NewIsUnknown(ops: seq<Op>)
    requires ops != [] && Distinct(ops) && ops[|ops| - 1].Emission?
    ensures !Known(ops[..|ops| - 1], ops[|ops| - 1].envelope)
  {
  }

  /** The journal loses no envelope that was appended to it if and only if no emission truncates
      it while an earlier envelope is pending. */
  lemma {:induction false} JournalLosesNothingIff(ops: seq<Op>)
    requires Distinct(ops)
    ensures AllKept(History(ops)) <==> NeverTruncatesPending(ops)
  {
    if ops != [] {
      var before, last := ops[..|ops| - 1], ops[|ops| - 1];
      JournalLosesNothingIff(before);
      var past := History(before);
      JournalIsRecent(before);
      HistoryIsKnown(before);
      if last.Emission? {
        NewIsUnknown(ops);
      }
      if AllKept(Continue(past, last)) {
        LossIsForever(past, last);
      }
      if AllKept(past) {
        if last.Emission? {
          EmitKeepsIff(past, last);
        } else {
          RecoveryKeeps(past, last);
        }
      }
      hide Continue;
    }
  }

  // ---------------------------------------------------------------- every emitted envelope

  /** Every envelope that was ever emitted is on the stream or in the journal. */
  ghost predicate EverythingKept(ops: seq<Op>) {
    forall e :: Known(ops, e) ==> Kept(History(ops).desk, e)
  }

  /** Every emission got its envelope onto the disk, whether or not that was confirmed. */
  ghost predicate AlwaysWritten(ops: seq<Op>) {
    forall i :: 0 <= i < |ops| && ops[i].Emission? ==> !ops[i].faults.append.NotWritten?
  }

  /** What was emitted and written has been appended, and nothing else. */
  lemma {:induction false} AppendedIff(ops: seq<Op>, e: Envelope)
    ensures e in History(ops).appended
            <==> exists i ::
                   0 <= i < |ops| && ops[i].Emission? && !ops[i].faults.append.NotWritten? && ops[i].envelope == e
  {
    if ops != [] {
      var n := |ops| - 1;
      AppendedIff(ops[..n], e);
      var past := History(ops[..n]);
      hide History;
      assert History(ops) == Continue(past, ops[n]) by { LastOp(ops); }
      hide Act;
      hide Clears;
      forall i | 0 <= i < n ensures ops[..n][i] == ops[i] {}
      if e in past.appended {
        var i :| 0 <= i < n && ops[..n][i].Emission? && !ops[..n][i].faults.append.NotWritten?
          && ops[..n][i].envelope == e;
        assert ops[i].Emission? && ops[i].envelope == e;
      }
    }
  }

  lemma LastOp(ops: seq<Op>)
    requires ops != []
    ensures History(ops) == Continue(History(ops[..|ops| - 1]), ops[|ops| - 1])
  {
  }

  /** An envelope whose append was refused is nowhere, and since envelopes are new when they are
      emitted it never will be. */
  lemma {:induction false} RefusedIsLost(ops: seq<Op>, i: nat)
    requires Distinct(ops) && i < |ops| && ops[i].Emission? && ops[i].faults.append.NotWritten?
    ensures !Kept(History(ops).desk, ops[i].envelope)
  {
    var n := |ops| - 1;
    var past := History(ops[..n]);
    if i < n {
      RefusedIsLost(ops[..n], i);
    } else {
      HistoryIsKnown(ops[..n]);
      NewIsUnknown(ops);
    }
    if Kept(History(ops).desk, ops[i].envelope) {
      ActAddsOnlyOwn(past.desk, ops[n], ops[i].envelope);
    }
  }

  /** Over any history no emitted envelope is lost if and only if every append reached the disk
      and no emission truncates the journal while an earlier envelope is pending. */
  lemma NothingLostIff(ops: seq<Op>)
    requires Distinct(ops)
    ensures EverythingKept(ops) <==> AlwaysWritten(ops) && NeverTruncatesPending(ops)
  {
    JournalLosesNothingIff(ops);
    forall e ensures e in History(ops).appended ==> Known(ops, e) {
      AppendedIff(ops, e);
    }
    if EverythingKept(ops) {
      forall i | 0 <= i < |ops| && ops[i].Emission? ensures !ops[i].faults.append.NotWritten? {
        if ops[i].faults.append.NotWritten? {
          RefusedIsLost(ops, i);
        }
        assert Known(ops, ops[i].envelope);
      }
    } else {
      var e :| Known(ops, e) && !Kept(History(ops).desk, e);
      AppendedIff(ops, e);
    }
  }

  /** When nothing is lost, one recovery that meets no fault puts every envelope ever emitted on
      the stream. */
  lemma RecoveryCatchesUp(ops: seq<Op>, faults: nat -> Faults, e: Envelope)
    requires Distinct(ops) && AlwaysWritten(ops) && NeverTruncatesPending(ops) && Known(ops, e)
    requires AllGoOut(History(ops).desk.journal, faults)
    ensures e in Recover(History(ops).desk, faults, true).stream
  {
    NothingLostIff(ops);
    RecoverPublishesAll(History(ops).desk, faults);
  }

  // ---------------------------------------------------------------- when nothing fails

  predicate Faultless(op: Op) {
    op.Emission? ==>
      && op.faults.append.Written? && op.faults.stream.Delivered?
      && (op.broadcast ==> op.faults.channel.Delivered?) && op.faults.truncates
  }

  /** The envelopes emitted, or only those to be broadcast. */
  function Emitted(ops: seq<Op>, all: bool): seq<Envelope> {
    if ops == [] then []
    else
      var last := ops[|ops| - 1];
      Emitted(ops[..|ops| - 1], all) + if last.Emission? && (all || last.broadcast) then [last.envelope] else []
  }

  /** Without faults the stream holds every envelope once, in the order of emission, the channel
      those to be broadcast, and the journal nothing, wherever restarts fall. */
  lemma {:induction false} FaultlessDelivers(ops: seq<Op>)
    requires forall i :: 0 <= i < |ops| ==> Faultless(ops[i])
    ensures History(ops).desk == Desk([], Emitted(ops, true), Emitted(ops, false))
  {
    if ops != [] {
      FaultlessDelivers(ops[..|ops| - 1]);
      assert Faultless(ops[|ops| - 1]);
    }
  }

  /** The promise that no event is lost is false: one failed emission followed by one that
      succeeds loses the first envelope. */
  lemma BlipThenSuccessLoses(a: Envelope, b: Envelope)
    requires a != b
    ensures exists ops :: Distinct(ops) && a in History(ops).appended && !Kept(History(ops).desk, a)
  {
    var blip := Emission(a, false, Faults(Written, Undelivered, Undelivered, true));
    var fine := Emission(b, false, Faults(Written, Delivered, Delivered, true));
    HistorySnoc([], blip);
    HistorySnoc([] + [blip], fine);
    assert a in History([] + [blip] + [fine]).appended;
  }

  lemma HistorySnoc(ops: seq<Op>, op: Op)
    ensures History(ops + [op]) == Continue(History(ops), op)
  {
    assert (ops + [op])[..|ops|] == ops;
  }

  // ---------------------------------------------------------------- the journal and its targets

  class Publisher {
    var journal: seq<Envelope>
    var stream: seq<Envelope>
    var channel: seq<Envelope>

    ghost function Contents(): Desk
      reads this
    {
      Desk(journal, stream, channel)
    }

    constructor ()
      ensures Contents() == EMPTY.desk
    {
      journal, stream, channel := [], [], [];
    }

    method AppendLine(e: Envelope, how: Append) returns (ok: bool)
      modifies this`journal
      ensures ok <==> how.Written?
      ensures journal == old(journal) + if how.NotWritten? then [] else [e]
    {
      if !how.NotWritten? {
        journal := journal + [e];
      }
      ok := how.Written?;
    }

    method Add(e: Envelope, how: Delivery) returns (ok: bool)
      modifies this`stream
      ensures (ok <==> how.Delivered?) && stream == Arrives(old(stream), e, how)
    {
      if !how.Undelivered? {
        stream := stream + [e];
      }
      ok := how.Delivered?;
    }

    method Broadcast(e: Envelope, how: Delivery) returns (ok: bool)
      modifies this`channel
      ensures (ok <==> how.Delivered?) && channel == Arrives(old(channel), e, how)
    {
      if !how.Undelivered? {
        channel := channel + [e];
      }
      ok := how.Delivered?;
    }

    /** One emit cycle. */
    method EmitEvent(e: Envelope, broadcast: bool, f: Faults) returns (ok: bool)
      modifies this
      ensures Contents() == Emit(old(Contents()), e, broadcast, f)
      ensures ok <==> f.append.Written? && f.stream.Delivered? && (broadcast ==> f.channel.Delivered?)
      ensures journal == if ok && f.truncates then [] else if f.append.NotWritten? then old(journal)
              else old(journal) + [e]
      ensures ok ==> stream == old(stream) + [e] && channel == old(channel) + if broadcast then [e] else []
    {
      ok := AppendLine(e, f.append);
      if !ok {
        return;
      }
      ok := Add(e, f.stream);
      if !ok {
        return;
      }
      if broadcast {
        ok := Broadcast(e, f.channel);
        if !ok {
          return;
        }
      }
      if f.truncates {
        journal := [];
      }
    }

    /** Republishes what the journal holds and truncates it at the end. */
    method RecoverAll(faults: nat -> Faults, truncates: bool) returns (ok: bool)
      modifies this
      ensures Contents() == Recover(old(Contents()), faults, truncates)
      ensures ok <==> old(journal) == [] || (truncates && AllGoOut(old(journal), faults))
      ensures ok ==>
                && stream == old(stream) + old(journal) && channel == old(channel) + Trades(old(journal))
                && journal == []
    {
      var lines := journal;
      ghost var start := Contents();
      for i := 0 to |lines|
        invariant journal == lines == start.journal
        invariant Republish(start, lines, faults, 0) == Republish(Contents(), lines, faults, i)
        invariant forall j :: 0 <= j < i ==> GoesOut(lines[j], faults(j))
      {
        ok := Add(lines[i], faults(i).stream);
        if !ok {
          return;
        }
        if lines[i].isTrade {
          ok := Broadcast(lines[i], faults(i).channel);
          if !ok {
            return;
          }
        }
      }
      RecoverPublishesAll(start, faults);
      if truncates {
        journal := [];
      }
      ok := truncates || lines == [];
    }
  }
}
