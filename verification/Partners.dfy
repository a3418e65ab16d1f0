/** Which ranks of the other group a rank of the sending or of the receiving group talks to. Both
    tools run the same computation, each with its own group as `size`. */
module Partners {
  import opened Arithmetic

  /** One group size divides the other. */
  predicate Divisible(size: nat, remote: nat)
    requires size > 0 && remote > 0
  {
    if size >= remote then size % remote == 0 else remote % size == 0
  }

  /** How many ranks of the larger group share a rank of the smaller one. */
  function Ratio(size: nat, remote: nat): nat
    requires size > 0 && remote > 0
  {
    if size >= remote then Quotient(size, remote) else Quotient(remote, size)
  }

  lemma RatioExact(size: nat, remote: nat)
    requires size > 0 && remote > 0 && Divisible(size, remote)
    ensures var q := Ratio(size, remote);
      q > 0 && Ratio(remote, size) == q && (size == remote ==> q == 1) &&
      if size >= remote then size == Times(remote, q) else remote == Times(size, q)
  {
    var small, large := if size >= remote then remote else size, if size >= remote then size else remote;
    var q := Quotient(large, small);
    QuotientIs(large, small);
    TimesIs(small, q);
    assert large == large / small * small + large % small;
    assert small * q == q * small;
  }

  function PartnersOf(size: nat, remote: nat, rank: nat): (ranks: seq<nat>)
    requires size > 0 && remote > 0 && Divisible(size, remote)
  {
    RatioExact(size, remote);
    var q := Ratio(size, remote);
    if size >= remote then [Quotient(rank, q)]
    else seq(q, (i: nat) => Times(rank, q) + i)
  }

  method PartnerRanks(size: nat, remote: nat, rank: nat) returns (ok: bool, ranks: seq<nat>, fraction: nat)
    requires size > 0 && remote > 0
    ensures ok <==> Divisible(size, remote)
    ensures ok ==> ranks == PartnersOf(size, remote, rank) && fraction == |ranks|
  {
    ranks, fraction, ok := [], 1, true;
    if size >= remote {
      if size % remote != 0 {
        ok := false;
        return;
      }
      RatioExact(size, remote);
      QuotientIs(size, remote);
      QuotientIs(rank, size / remote);
      ranks := ranks + [rank / (size / remote)];
    } else {
      if remote % size != 0 {
        ok := false;
        return;
      }
      RatioExact(size, remote);
      QuotientIs(remote, size);
      fraction := remote / size;
      TimesIs(rank, fraction);
      for i := 0 to fraction
        invariant ranks == seq(i, (k: nat) => Times(rank, fraction) + k)
      {
        ranks := ranks + [rank * fraction + i];
      }
    }
  }

  /** A sender lists a receiver exactly when that receiver lists the sender. */
  lemma Mutual(senders: nat, receivers: nat, s: nat, r: nat)
    requires senders > 0 && receivers > 0 && Divisible(senders, receivers) && s < senders && r < receivers
    ensures r in PartnersOf(senders, receivers, s) <==> s in PartnersOf(receivers, senders, r)
  {
    RatioExact(senders, receivers);
    var q := Ratio(senders, receivers);
    if senders > receivers {
      BlockPartner(q, s, r);
    } else if senders < receivers {
      BlockPartner(q, r, s);
    } else {
      TimesOne(s);
      TimesOne(r);
    }
  }

  /** `large` lies in the `small`-th block of `q` ranks. */
  lemma BlockPartner(q: nat, large: nat, small: nat)
    requires q > 0
    ensures large in seq(q, (i: nat) => Times(small, q) + i) <==> Quotient(large, q) == small
  {
    var block := seq(q, (i: nat) => Times(small, q) + i);
    QuotientBounds(large, q);
    if Times(small, q) <= large < Times(small, q) + q {
      QuotientUnique(large, q, small);
      assert block[large - Times(small, q)] == large;
    }
  }

  /** Partners are ranks of the other group, listed in order; rank 0 lists rank 0 first. */
  lemma InOrder(size: nat, remote: nat, rank: nat)
    requires size > 0 && remote > 0 && Divisible(size, remote) && rank < size
    ensures var ranks := PartnersOf(size, remote, rank);
      ranks != [] && (rank == 0 ==> ranks[0] == 0) &&
      (forall i :: 0 <= i < |ranks| ==> ranks[i] < remote && ranks[i] == ranks[0] + i)
  {
    RatioExact(size, remote);
    var q := Ratio(size, remote);
    if size >= remote {
      QuotientBounds(rank, q);
      var b := Quotient(rank, q);
      if remote < b { TimesMonotone(remote, b, q); }
    } else {
      TimesMonotone(rank, size, q);
    }
  }

}
