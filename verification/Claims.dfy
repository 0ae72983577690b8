/** Claim ids, and the judgment that must classify every submitted claim. */
module Claims {
  import opened ReviewTypes

  /** A claim id is a digest of its invocation and ordinal, so it stands for
      both. */
  datatype ClaimId = ClaimId(invocation: Seat, ordinal: nat)

  datatype Claim =
    | Text(statement: string)
    | Structured(id: Option<ClaimId>, kind: string, statement: string, references: seq<string>, alternatives: seq<string>)

  predicate Distinct<T(==)>(xs: seq<T>) {
    forall i, j :: 0 <= i < j < |xs| ==> xs[i] != xs[j]
  }

  predicate IsDraft(c: Claim) {
    c.Structured? && c.id.None?
  }

  /** The claims of one invocation, numbered in order. */
  predicate Issued(claims: seq<Claim>, invocation: Seat) {
    forall i :: 0 <= i < |claims| ==> claims[i].Structured? && claims[i].id == Some(ClaimId(invocation, i + 1))
  }

  function Issue(drafts: seq<Claim>, invocation: Seat): (r: seq<Claim>)
    requires forall i :: 0 <= i < |drafts| ==> IsDraft(drafts[i])
    ensures Issued(r, invocation) && |r| == |drafts|
  {
    seq(|drafts|, i requires 0 <= i < |drafts| && IsDraft(drafts[i]) => drafts[i].(id := Some(ClaimId(invocation, i + 1))))
  }

  /** assign_assessment_claim_ids: None when a draft is plain text or already
      carries an id. */
  method AssignClaimIds(drafts: seq<Claim>, invocation: Seat) returns (r: Option<seq<Claim>>)
    ensures r.Some? <==> forall i :: 0 <= i < |drafts| ==> IsDraft(drafts[i])
    ensures r.Some? ==> r.value == Issue(drafts, invocation)
    ensures r.Some? ==> forall i :: 0 <= i < |drafts| ==> r.value[i].(id := None) == drafts[i]
  {
    var normalized: seq<Claim> := [];
    var i := 0;
    while i < |drafts|
      invariant 0 <= i <= |drafts| && |normalized| == i
      invariant forall k :: 0 <= k < i ==> IsDraft(drafts[k]) && normalized[k] == drafts[k].(id := Some(ClaimId(invocation, k + 1)))
    {
      var claim := drafts[i];
      if claim.Text? || claim.id.Some? { return None; }
      normalized := normalized + [claim.(id := Some(ClaimId(invocation, i + 1)))];
      i := i + 1;
    }
    assert normalized == Issue(drafts, invocation);
    r := Some(normalized);
  }

  function IdsOf(claims: seq<Claim>): set<ClaimId> {
    set c | c in claims && c.Structured? && c.id.Some? :: c.id.value
  }

  lemma IdsAppend(claims: seq<Claim>, last: Claim)
    requires last.Structured? && last.id.Some?
    ensures IdsOf(claims + [last]) == IdsOf(claims) + {last.id.value}
  {
    var all := claims + [last];
    assert last in all;
    forall id | id in IdsOf(claims) ensures id in IdsOf(all) {
      var c :| c in claims && c.Structured? && c.id == Some(id);
      assert c in all;
    }
  }

  /** Issued ids are as many as the claims, and name their invocation. */
  lemma {:induction false} IssuedIds(claims: seq<Claim>, invocation: Seat)
    requires Issued(claims, invocation)
    ensures |IdsOf(claims)| == |claims|
    ensures forall id :: id in IdsOf(claims) <==> id.invocation == invocation && 1 <= id.ordinal <= |claims|
    decreases |claims|
  {
    if claims == [] {
      assert IdsOf(claims) == {};
    } else {
      hide IdsOf;
      var n := |claims|;
      var front, last := claims[..n - 1], claims[n - 1];
      assert last.id == Some(ClaimId(invocation, n));
      assert Issued(front, invocation);
      IssuedIds(front, invocation);
      assert claims == front + [last];
      IdsAppend(front, last);
      var before, after := IdsOf(front), IdsOf(claims);
      assert after == before + {ClaimId(invocation, n)};
      assert ClaimId(invocation, n) !in before;
      forall id ensures id in after <==> id.invocation == invocation && 1 <= id.ordinal <= n {
        if id.invocation == invocation && id.ordinal == n { assert id == ClaimId(invocation, n); }
      }
    }
  }

  // ------------------------------------------------------------ classification

  datatype Classification = Classification(supporting: seq<ClaimId>, rejected: seq<ClaimId>, unresolved: seq<ClaimId>)

  function Classified(c: Classification): seq<ClaimId> {
    c.supporting + c.rejected + c.unresolved
  }

  function Members<T>(xs: seq<T>): set<T> {
    set x | x in xs
  }

  /** The judgment model's own rule, then validate_judgment's: something is
      classified, nothing unknown is, and nothing is omitted. */
  predicate Accepted(c: Classification, available: set<ClaimId>) {
    && Distinct(Classified(c))
    && Classified(c) != []
    && Members(Classified(c)) - available == {}
    && available - Members(Classified(c)) == {}
  }

  /** Claim ids offered to reviewer C: its own blind claims and those of both
      cross-review responses. */
  function Available(own: seq<Claim>, crossA: seq<Claim>, crossB: seq<Claim>): set<ClaimId> {
    IdsOf(own) + IdsOf(crossA) + IdsOf(crossB)
  }

  lemma {:induction false} DistinctSize<T>(xs: seq<T>)
    requires Distinct(xs)
    ensures |Members(xs)| == |xs|
    decreases |xs|
  {
    if xs == [] {
      assert Members(xs) == {};
    } else {
      var front, last := xs[..|xs| - 1], xs[|xs| - 1];
      DistinctSize(front);
      assert xs == front + [last];
      assert Members(xs) == Members(front) + {last};
    }
  }

  /** How many of the three lists hold an id. */
  function Places(c: Classification, id: ClaimId): nat {
    (if id in c.supporting then 1 else 0) + (if id in c.rejected then 1 else 0) + (if id in c.unresolved then 1 else 0)
  }

  lemma PartsDiffer<T>(a: seq<T>, b: seq<T>, c: seq<T>)
    requires Distinct(a + b + c)
    ensures forall x, y :: x in a && y in b ==> x != y
    ensures forall x, y :: x in a && y in c ==> x != y
    ensures forall x, y :: x in b && y in c ==> x != y
  {
    var all := a + b + c;
    forall i, j | 0 <= i < |a| && 0 <= j < |b| ensures a[i] != b[j] { assert all[i] == a[i] && all[|a| + j] == b[j]; }
    forall i, j | 0 <= i < |a| && 0 <= j < |c| ensures a[i] != c[j] { assert all[i] == a[i] && all[|a| + |b| + j] == c[j]; }
    forall i, j | 0 <= i < |b| && 0 <= j < |c| ensures b[i] != c[j] { assert all[|a| + i] == b[i] && all[|a| + |b| + j] == c[j]; }
  }

  lemma OnePlace(c: Classification, id: ClaimId)
    requires Distinct(Classified(c)) && id in Classified(c)
    ensures Places(c, id) == 1
  {
    PartsDiffer(c.supporting, c.rejected, c.unresolved);
  }

  /** Exactly-once classification: an accepted judgment puts every claim of C's
      blind review and of both cross reviews in exactly one list, and the lists
      hold as many ids as there are claims. */
  lemma ExactlyOnce(c: Classification, own: seq<Claim>, crossA: seq<Claim>, crossB: seq<Claim>)
    requires Issued(own, BlindC) && Issued(crossA, CrossA) && Issued(crossB, CrossB)
    requires Accepted(c, Available(own, crossA, crossB))
    ensures forall claim :: claim in own || claim in crossA || claim in crossB ==> claim.id.Some? && Places(c, claim.id.value) == 1
    ensures |c.supporting| + |c.rejected| + |c.unresolved| == |own| + |crossA| + |crossB|
  {
    IssuedIds(own, BlindC);
    IssuedIds(crossA, CrossA);
    IssuedIds(crossB, CrossB);
    var available := Available(own, crossA, crossB);
    assert Members(Classified(c)) == available;
    assert |available| == |own| + |crossA| + |crossB|;
    DistinctSize(Classified(c));
    forall claim | claim in own || claim in crossA || claim in crossB ensures claim.id.Some? && Places(c, claim.id.value) == 1 {
      assert claim.id.value in available;
      OnePlace(c, claim.id.value);
    }
  }
}
