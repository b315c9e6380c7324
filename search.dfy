/** The dashboard's search box: a case-insensitive substring filter over the
    credential list, matching title, website or username. */
module Search {
  import opened Strings
  import opened Vault

  /** A credential is shown when the lower-cased term occurs in its lower-cased
      title, website or username. */
  predicate Matches(c: Credential, term: string) {
    var t := Lower(term);
    Contains(Lower(c.title), t) || Contains(Lower(c.website), t) || Contains(Lower(c.username), t)
  }

  /** `credentials.filter(...)`: the matching credentials, in list order. */
  function Filter(creds: seq<Credential>, term: string): (r: seq<Credential>)
    ensures |r| <= |creds|
    ensures forall c :: c in r ==> c in creds && Matches(c, term)
    ensures forall c :: c in creds && Matches(c, term) ==> c in r
  {
    if creds == [] then []
    else
      var n := |creds| - 1;
      var init := Filter(creds[..n], term);
      assert creds == creds[..n] + [creds[n]];
      if Matches(creds[n], term) then init + [creds[n]] else init
  }

  /** The positions of the matching credentials, in increasing order. */
  function Kept(creds: seq<Credential>, term: string): seq<nat> {
    if creds == [] then []
    else
      var n := |creds| - 1;
      Kept(creds[..n], term) + (if Matches(creds[n], term) then [n] else [])
  }

  /** Kept lists positions of the list, in strictly increasing order. */
  lemma {:induction false} KeptIncreasing(creds: seq<Credential>, term: string)
    ensures forall k :: 0 <= k < |Kept(creds, term)| ==> Kept(creds, term)[k] < |creds|
    ensures forall k, l :: 0 <= k < l < |Kept(creds, term)| ==> Kept(creds, term)[k] < Kept(creds, term)[l]
  {
    if creds != [] {
      var n := |creds| - 1;
      KeptIncreasing(creds[..n], term);
      var kp, ks := Kept(creds[..n], term), Kept(creds, term);
      assert ks == kp + (if Matches(creds[n], term) then [n] else []);
      forall k, l | 0 <= k < l < |ks|
        ensures ks[k] < ks[l]
      {
        if l < |kp| {
          assert ks[k] == kp[k] && ks[l] == kp[l];
        } else {
          assert ks[k] == kp[k] < n && ks[l] == n;
        }
      }
    }
  }

  /** Kept holds exactly the positions whose credential matches. */
  lemma {:induction false} KeptExactlyMatching(creds: seq<Credential>, term: string)
    ensures forall i :: 0 <= i < |creds| ==> (i in Kept(creds, term) <==> Matches(creds[i], term))
  {
    if creds != [] {
      var n := |creds| - 1;
      var p := creds[..n];
      KeptExactlyMatching(p, term);
      KeptIncreasing(p, term);
      var kp, ks := Kept(p, term), Kept(creds, term);
      assert ks == kp + (if Matches(creds[n], term) then [n] else []);
      forall i | 0 <= i < |creds|
        ensures i in ks <==> Matches(creds[i], term)
      {
        if i < n {
          assert p[i] == creds[i];
          assert i in ks <==> i in kp;
        } else {
          assert n !in kp by {
            forall k | 0 <= k < |kp| ensures kp[k] != n { }
          }
        }
      }
    }
  }

  /** The k-th filtered credential is the one at the k-th kept position. */
  lemma {:induction false} FilterAtKept(creds: seq<Credential>, term: string)
    ensures |Kept(creds, term)| == |Filter(creds, term)|
    ensures forall k :: 0 <= k < |Kept(creds, term)| ==>
      Kept(creds, term)[k] < |creds| && Filter(creds, term)[k] == creds[Kept(creds, term)[k]]
  {
    KeptIncreasing(creds, term);
    if creds != [] {
      var n := |creds| - 1;
      var p := creds[..n];
      FilterAtKept(p, term);
      KeptIncreasing(p, term);
      var kp, fp := Kept(p, term), Filter(p, term);
      var ks, fs := Kept(creds, term), Filter(creds, term);
      assert ks == kp + (if Matches(creds[n], term) then [n] else []);
      assert fs == fp + (if Matches(creds[n], term) then [creds[n]] else []);
      forall k | 0 <= k < |ks|
        ensures fs[k] == creds[ks[k]]
      {
        if k < |kp| {
          assert ks[k] == kp[k] && fs[k] == fp[k];
          assert p[kp[k]] == creds[kp[k]];
        }
      }
    }
  }

  /** The filtered list is the order-preserving selection of exactly the
      positions whose credential matches. */
  lemma {:induction false} FilterSelectsMatchingPositions(creds: seq<Credential>, term: string)
    ensures |Kept(creds, term)| == |Filter(creds, term)|
    ensures forall k :: 0 <= k < |Kept(creds, term)| ==>
      Kept(creds, term)[k] < |creds| && Filter(creds, term)[k] == creds[Kept(creds, term)[k]]
    ensures forall k, l :: 0 <= k < l < |Kept(creds, term)| ==> Kept(creds, term)[k] < Kept(creds, term)[l]
    ensures forall i :: 0 <= i < |creds| ==> (i in Kept(creds, term) <==> Matches(creds[i], term))
  {
    KeptIncreasing(creds, term);
    KeptExactlyMatching(creds, term);
    FilterAtKept(creds, term);
  }

  /** An empty term keeps every credential. */
  lemma {:induction false} EmptyTermKeepsAll(creds: seq<Credential>)
    ensures Filter(creds, "") == creds
  {
    if creds != [] {
      var n := |creds| - 1;
      EmptyTermKeepsAll(creds[..n]);
      ContainsEmpty(Lower(creds[n].title));
      assert creds[..n] + [creds[n]] == creds;
    }
  }

  /** Two terms with the same lower-case form select the same credentials. */
  lemma {:induction false} FilterIgnoresTermCase(creds: seq<Credential>, t1: string, t2: string)
    requires Lower(t1) == Lower(t2)
    ensures Filter(creds, t1) == Filter(creds, t2)
  {
    if creds != [] {
      FilterIgnoresTermCase(creds[..|creds| - 1], t1, t2);
    }
  }

  /** Typing the term in upper or lower case does not change the result. */
  lemma {:induction false} FilterIgnoresLetterCase(creds: seq<Credential>, term: string)
    ensures Filter(creds, Upper(term)) == Filter(creds, term)
    ensures Filter(creds, Lower(term)) == Filter(creds, term)
  {
    LowerOfUpper(term);
    FilterIgnoresTermCase(creds, Upper(term), term);
    LowerIdempotent(term);
    FilterIgnoresTermCase(creds, Lower(term), term);
  }

  /** Password, notes, category, id and creation time play no part in matching. */
  lemma MatchIgnoresOtherColumns(c: Credential, d: Credential, term: string)
    requires c.title == d.title && c.website == d.website && c.username == d.username
    ensures Matches(c, term) == Matches(d, term)
  {
  }
}
