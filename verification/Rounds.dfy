/** What the messages of the transfer protocol carry: the rounds that a receiver has gone through are those
    of its partners, one by one, and the arrays in them are conserved. */
module Rounds {
  import opened Arithmetic
  import opened Bytes
  import opened Partners
  import opened Redistribution
  import T = Transfer

  /** `rounds[k]` holds the named data that the senders have in their `k`-th round. */
  ghost predicate Supplied(senders: nat, items: seq<Item>, rounds: seq<seq<Source>>) {
    forall k :: 0 <= k < |rounds| ==> |rounds[k]| == senders && AllHave(rounds[k], items)
  }

  /** The sizes of the two groups, and what the senders have. */
  datatype Setting = Setting(senders: nat, receivers: nat, items: seq<Item>, rounds: seq<seq<Source>>) {
    ghost predicate Valid() {
      senders > 0 && receivers > 0 && Divisible(senders, receivers) && Divisible(receivers, senders) &&
      Supplied(senders, items, rounds)
    }

    ghost function Config(calls: nat, async: bool): T.Config
      requires Valid()
    {
      T.Between(senders, receivers, calls, async)
    }

    function From(r: nat): seq<nat>
      requires senders > 0 && receivers > 0 && Divisible(receivers, senders)
    {
      PartnersOf(receivers, senders, r)
    }

    /** All messages to receiver `r` in round `k`. */
    ghost function MessagesIn(r: nat, k: nat): seq<seq<Field>>
      requires Valid() && r < receivers && k < |rounds|
    {
      MessagesTo(rounds[k], receivers, items, r)
    }
  }

  /** The rounds in which a receiver has been sent the messages that it took in as its `k`-th ones. */
  predicate HasTaken(x: Setting, w: T.World, r: nat, k: nat)
    requires x.senders > 0 && x.receivers > 0 && Divisible(x.receivers, x.senders)
  {
    forall i: nat :: i < |x.From(r)| ==> TakenRound(x, w, x.From(r)[i], r, k)
  }

  predicate TakenRound(x: Setting, w: T.World, s: nat, r: nat, k: nat) {
    s < x.senders && k < |T.At(w.got, s, r)| && T.At(w.got, s, r)[k] < |x.rounds|
  }

  /** The bytes that a receiver has read in its `k`-th round, from its partners in rank order: a message of
      round `n` is what the sender packs then. */
  ghost function BuffersRead(x: Setting, w: T.World, r: nat, k: nat): (buffers: seq<seq<Byte>>)
    requires x.Valid() && HasTaken(x, w, r, k)
    ensures |buffers| == |x.From(r)|
  {
    seq(|x.From(r)|, i requires 0 <= i < |x.From(r)| => BufferRead(x, w, x.From(r)[i], r, k))
  }

  ghost function BufferRead(x: Setting, w: T.World, s: nat, r: nat, k: nat): seq<Byte>
    requires x.Valid() && TakenRound(x, w, s, r, k)
  {
    var n := T.At(w.got, s, r)[k];
    assert |x.rounds[n]| == x.senders;
    MessageBytes(MessageFrom(x.rounds[n], x.receivers, x.items, s, r))
  }

  /** The `k`-th message taken in on a pair is that of the `k`-th round. */
  lemma PairInOrder(c: T.Config, w: T.World, s: nat, r: nat, k: nat)
    requires T.Inv(c, w) && c.Linked(s, r) && k < w.turn[r]
    ensures k < |T.At(w.got, s, r)| && T.At(w.got, s, r)[k] == k < T.Trues(w.log)
  {
    assert T.PairOk(c, w, s, r);
    T.SentBound(c, w, s, r);
    var n := T.SentTo(c, w, s, r);
    assert (T.At(w.got, s, r) + T.At(w.data, s, r))[k] == T.Iota(n)[k];
    assert |T.At(w.got, s, r) + T.At(w.data, s, r)| == n;
  }

  lemma PartnerLinked(x: Setting, calls: nat, async: bool, r: nat, i: nat)
    requires x.Valid() && r < x.receivers && i < |x.From(r)|
    ensures x.From(r)[i] < x.senders && x.Config(calls, async).Linked(x.From(r)[i], r)
  {
    var c := x.Config(calls, async);
    T.BetweenValid(x.senders, x.receivers, calls, async);
    assert c.from[r] == x.From(r) && T.Consecutive(c.from[r], x.senders);
  }

  /** In every state that keeps the protocol's invariant, whatever a receiver has read in a round that it
      has finished is what its partners have packed in that round, and so a list of well-formed messages. */
  lemma RoundRead(x: Setting, calls: nat, async: bool, w: T.World, r: nat, k: nat)
    requires x.Valid() && r < x.receivers && T.Inv(x.Config(calls, async), w)
    requires k < w.turn[r] && T.Trues(w.log) <= |x.rounds|
    ensures k < |x.rounds| && HasTaken(x, w, r, k)
    ensures WellFormed(x.items, BuffersRead(x, w, r, k), x.MessagesIn(r, k))
  {
    var c := x.Config(calls, async);
    forall i: nat | i < |x.From(r)|
      ensures TakenRound(x, w, x.From(r)[i], r, k) && T.At(w.got, x.From(r)[i], r)[k] == k
    {
      PartnerLinked(x, calls, async, r, i);
      PairInOrder(c, w, x.From(r)[i], r, k);
    }
    InOrder(x.receivers, x.senders, r);
    MessagesFit(x.rounds[k], x.receivers, x.items, r);
  }

  /** When all ranks have left, every round that was let in has reached every receiver, and its arrays, one
      receiver behind the other, are those of the senders of that round. In asynchronous mode these are all
      rounds that were sent. */
  lemma RoundsArrive(x: Setting, calls: nat, async: bool, ws: seq<T.World>, es: seq<T.Event>)
    requires x.Valid() && T.Run(x.Config(calls, async), ws, es)
    requires T.Sized(x.Config(calls, async), ws[|es|]) && T.Done(x.Config(calls, async), ws[|es|])
    requires T.Trues(ws[|es|].log) <= |x.rounds|
    ensures var w := ws[|es|]; 0 <= T.RoundsIn(w) <= |x.rounds| && (async ==> T.RoundsIn(w) == T.Trues(w.log))
    ensures forall k: nat, r: nat :: k < T.RoundsIn(ws[|es|]) && r < x.receivers ==> Arrived(x, ws[|es|], r, k)
    ensures forall k: nat, j: nat :: k < T.RoundsIn(ws[|es|]) && j < |x.items| && x.items[j].ArrayItem? ==>
      Conserved(x, k, j)
  {
    var c, w := x.Config(calls, async), ws[|es|];
    T.BetweenValid(x.senders, x.receivers, calls, async);
    T.RunInv(c, ws, es);
    assert c.Linked(0, 0);
    T.Delivered(c, w, 0, 0);
    forall k: nat, r: nat | k < T.RoundsIn(w) && r < x.receivers ensures Arrived(x, w, r, k) {
      assert T.Stopped(c, w, r);
      RoundRead(x, calls, async, w, r, k);
    }
    forall k: nat, j: nat | k < T.RoundsIn(w) && j < |x.items| && x.items[j].ArrayItem?
      ensures Conserved(x, k, j)
    {
      RoundConserved(x, k, j);
    }
  }

  ghost predicate Arrived(x: Setting, w: T.World, r: nat, k: nat)
    requires x.Valid() && r < x.receivers
  {
    k < |x.rounds| && HasTaken(x, w, r, k) && WellFormed(x.items, BuffersRead(x, w, r, k), x.MessagesIn(r, k))
  }

  /** What the receivers have of array item `j` in round `k`, joined, is what the senders have, joined. */
  ghost predicate Conserved(x: Setting, k: nat, j: nat)
    requires x.Valid() && j < |x.items| && x.items[j].ArrayItem?
  {
    k < |x.rounds| && Flatten(PartsOf(x, k, j)) == Flatten(WholesOf(x, k, j))
  }

  ghost function WholesOf(x: Setting, k: nat, j: nat): seq<seq<Byte>>
    requires x.Valid() && k < |x.rounds| && j < |x.items| && x.items[j].ArrayItem?
  {
    seq(x.senders, s requires 0 <= s < x.senders => Whole(x.rounds[k], x.items, s, j))
  }

  ghost function PartsOf(x: Setting, k: nat, j: nat): seq<seq<Byte>>
    requires x.Valid() && k < |x.rounds| && j < |x.items| && x.items[j].ArrayItem?
  {
    seq(x.receivers, r requires 0 <= r < x.receivers => Received(x.rounds[k], x.receivers, x.items, r, j).data)
  }

  lemma RoundConserved(x: Setting, k: nat, j: nat)
    requires x.Valid() && k < |x.rounds| && j < |x.items| && x.items[j].ArrayItem?
    ensures Conserved(x, k, j)
  {
    Conservation(x.rounds[k], x.receivers, x.items, j, WholesOf(x, k, j), PartsOf(x, k, j));
  }
}
