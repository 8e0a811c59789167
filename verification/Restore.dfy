/** Recovery of signatures whose answer was lost: the mint's response, in its own order, is matched
    back to the exact outputs the wallet stored. */
module Restore {
  import opened Ecash

  datatype Blinded = Blinded(message: nat, keyset: nat, amount: nat)

  datatype Signature = Signature(keyset: nat, amount: nat, point: nat)

  /** The restore answer: outputs and, in parallel, signatures, some of which may be missing. */
  datatype Response = Response(outputs: seq<Blinded>, signatures: seq<Option<Signature>>)

  predicate DistinctMessages(bs: seq<Blinded>) {
    forall i, j :: 0 <= i < j < |bs| ==> bs[i].message != bs[j].message
  }

  /** Signature `k` was made for output `k`. */
  predicate SignedFor(r: Response, k: nat)
    requires k < |r.outputs| == |r.signatures|
  {
    r.signatures[k].Some? && r.signatures[k].value.keyset == r.outputs[k].keyset && r.signatures[k].value.amount == r.outputs[k].amount
  }

  /** The response pairs are a permutation of the stored outputs: same blinded messages, keysets
      and amounts, each with its own signature. */
  predicate Answers(expected: seq<Blinded>, r: Response) {
    && |r.outputs| == |r.signatures| && DistinctMessages(expected)
    && multiset(r.outputs) == multiset(expected)
    && forall k :: 0 <= k < |r.outputs| ==> SignedFor(r, k)
  }

  /** The signature of the response for a stored output, in whatever place the mint put it. */
  predicate FoundAt(r: Response, b: Blinded, s: Signature) {
    |r.outputs| == |r.signatures| && exists k :: 0 <= k < |r.outputs| && r.outputs[k] == b && r.signatures[k] == Some(s)
  }

  // ---- counting ----

  lemma {:induction false} DistinctCount(bs: seq<Blinded>, b: Blinded)
    requires DistinctMessages(bs)
    ensures multiset(bs)[b] == if b in bs then 1 else 0
  {
    if bs != [] {
      assert bs == [bs[0]] + bs[1..];
      DistinctCount(bs[1..], b);
      assert bs[0] !in bs[1..] by { forall i | 0 <= i < |bs[1..]| ensures bs[1..][i] != bs[0] { assert bs[1..][i] == bs[i + 1]; } }
    }
  }

  /** Two lists without repeated messages and with the same members have the same members counted. */
  lemma SameCount(cs: seq<Blinded>, bs: seq<Blinded>)
    requires DistinctMessages(cs) && DistinctMessages(bs) && forall b :: b in cs <==> b in bs
    ensures multiset(cs) == multiset(bs)
  {
    forall b ensures multiset(cs)[b] == multiset(bs)[b] {
      DistinctCount(cs, b);
      DistinctCount(bs, b);
    }
  }

  function Messages(bs: seq<Blinded>): set<nat> { set b | b in bs :: b.message }

  lemma {:induction false} MessageCount(bs: seq<Blinded>)
    requires DistinctMessages(bs)
    ensures |Messages(bs)| == |bs|
  {
    if bs == [] {
      assert Messages(bs) == {};
    } else {
      assert bs == [bs[0]] + bs[1..];
      MessageCount(bs[1..]);
      assert Messages(bs) == {bs[0].message} + Messages(bs[1..]);
      assert bs[0].message !in Messages(bs[1..]) by {
        forall i | 0 <= i < |bs[1..]| ensures bs[1..][i].message != bs[0].message { assert bs[1..][i] == bs[i + 1]; }
      }
    }
  }

  lemma EqualMessages(cs: seq<Blinded>, bs: seq<Blinded>)
    requires DistinctMessages(cs) && DistinctMessages(bs) && |cs| == |bs| && Messages(cs) <= Messages(bs)
    ensures Messages(cs) == Messages(bs)
  {
    MessageCount(cs);
    MessageCount(bs);
    var extra := Messages(bs) - Messages(cs);
    assert Messages(bs) == Messages(cs) + extra;
  }

  lemma DistinctPermutation(cs: seq<Blinded>, bs: seq<Blinded>)
    requires DistinctMessages(bs) && multiset(cs) == multiset(bs)
    ensures DistinctMessages(cs)
  {
    forall i, j | 0 <= i < j < |cs| ensures cs[i].message != cs[j].message {
      if cs[i].message == cs[j].message {
        assert cs[i] in multiset(bs) && cs[j] in multiset(bs);
        var k :| 0 <= k < |bs| && bs[k] == cs[i];
        var l :| 0 <= l < |bs| && bs[l] == cs[j];
        assert cs[i] == cs[j];
        CountTwo(cs, i, j);
        DistinctCount(bs, cs[i]);
      }
    }
  }

  // ---- the matching ----

  /** What the first loop has collected: the signature of each message seen. */
  predicate Collected(r: Response, n: nat, table: map<nat, Signature>)
    requires |r.outputs| == |r.signatures|
  {
    && n <= |r.outputs| && DistinctMessages(r.outputs[..n]) && (forall k :: 0 <= k < n ==> SignedFor(r, k))
    && (forall k :: 0 <= k < n ==> r.outputs[k].message in table && r.signatures[k] == Some(table[r.outputs[k].message]))
    && (forall m :: m in table ==> exists k :: 0 <= k < n && r.outputs[k].message == m)
  }

  /** `matchRestoredSignatures`: succeeds exactly when the response answers the stored outputs, and
      then returns their signatures in stored order. */
  method MatchRestored(expected: seq<Blinded>, r: Response) returns (matched: Option<seq<Signature>>)
    ensures matched.Some? <==> Answers(expected, r)
    ensures matched.Some? ==> |matched.value| == |expected| && forall i :: 0 <= i < |expected| ==> FoundAt(r, expected[i], matched.value[i])
  {
    hide Answers, FoundAt, Collected, Messages, DistinctMessages;
    if |r.outputs| != |expected| || |r.signatures| != |expected| {
      LengthsMatter(expected, r);
      return None;
    }
    var byMessage: map<nat, Signature> := map[];
    var index := 0;
    NothingYet(expected, r);
    while index < |r.outputs|
      invariant 0 <= index <= |r.outputs| && Collected(r, index, byMessage)
    {
      var output, signature := r.outputs[index], r.signatures[index];
      if signature.None? || output.message in byMessage || output.keyset != signature.value.keyset || output.amount != signature.value.amount {
        Refused(expected, r, index, byMessage);
        return None;
      }
      assert byMessage[output.message := signature.value] - {output.message} == byMessage;
      byMessage := byMessage[output.message := signature.value];
      CollectNext(r, index, byMessage);
      index := index + 1;
    }
    var found: seq<Signature> := [];
    var seen: set<nat> := {};
    var i := 0;
    while i < |expected|
      invariant 0 <= i <= |expected| && |found| == i && seen == Messages(expected[..i]) && DistinctMessages(expected[..i])
      invariant forall k :: 0 <= k < i ==> FoundAt(r, expected[k], found[k])
    {
      var output := expected[i];
      if output.message in seen {
        Repeated(expected, r, i);
        return None;
      }
      if output.message !in byMessage || byMessage[output.message].keyset != output.keyset || byMessage[output.message].amount != output.amount {
        Unmatched(expected, r, i, byMessage);
        return None;
      }
      FoundNext(r, output, byMessage);
      SeenNext(expected, i);
      seen := seen + {output.message};
      found := found + [byMessage[output.message]];
      i := i + 1;
    }
    assert expected[..i] == expected;
    CollectedAll(r, byMessage);
    AllFound(expected, r, found);
    return Some(found);
  }

  lemma NothingYet(expected: seq<Blinded>, r: Response)
    requires |r.outputs| == |r.signatures|
    ensures Collected(r, 0, map[]) && Messages(expected[..0]) == {} && DistinctMessages(expected[..0])
  {
  }

  lemma CollectedAll(r: Response, table: map<nat, Signature>)
    requires |r.outputs| == |r.signatures| && Collected(r, |r.outputs|, table)
    ensures DistinctMessages(r.outputs) && forall k :: 0 <= k < |r.outputs| ==> SignedFor(r, k)
  {
    assert r.outputs[..|r.outputs|] == r.outputs;
  }

  lemma SeenNext(expected: seq<Blinded>, i: nat)
    requires i < |expected| && DistinctMessages(expected[..i]) && expected[i].message !in Messages(expected[..i])
    ensures DistinctMessages(expected[..i + 1]) && Messages(expected[..i + 1]) == Messages(expected[..i]) + {expected[i].message}
  {
    assert expected[..i + 1] == expected[..i] + [expected[i]];
    forall k | 0 <= k < i ensures expected[k].message in Messages(expected[..i]) { assert expected[..i][k] in expected[..i]; }
    forall m | m in Messages(expected[..i]) + {expected[i].message} ensures m in Messages(expected[..i + 1]) {
      if m in Messages(expected[..i]) {
        var b :| b in expected[..i] && b.message == m;
        assert b in expected[..i + 1];
      } else {
        assert expected[i] in expected[..i + 1];
      }
    }
  }

  lemma LengthsMatter(expected: seq<Blinded>, r: Response)
    requires |r.outputs| != |expected| || |r.signatures| != |expected|
    ensures !Answers(expected, r)
  {
    if Answers(expected, r) { SameLength(r.outputs, expected); }
  }

  lemma SameLength(cs: seq<Blinded>, bs: seq<Blinded>)
    requires multiset(cs) == multiset(bs)
    ensures |cs| == |bs|
  {
    assert |multiset(cs)| == |multiset(bs)|;
  }

  lemma Refused(expected: seq<Blinded>, r: Response, n: nat, table: map<nat, Signature>)
    requires |r.outputs| == |r.signatures| == |expected| && n < |r.outputs| && Collected(r, n, table)
    requires !SignedFor(r, n) || r.outputs[n].message in table
    ensures !Answers(expected, r)
  {
    if Answers(expected, r) { DistinctPermutation(r.outputs, expected); }
  }

  lemma CollectNext(r: Response, n: nat, table: map<nat, Signature>)
    requires |r.outputs| == |r.signatures| && n < |r.outputs| && SignedFor(r, n)
    requires r.outputs[n].message in table && table[r.outputs[n].message] == r.signatures[n].value
    requires Collected(r, n, table - {r.outputs[n].message})
    ensures Collected(r, n + 1, table)
  {
    assert r.outputs[..n + 1] == r.outputs[..n] + [r.outputs[n]];
    assert forall k :: 0 <= k < n ==> r.outputs[k].message in table - {r.outputs[n].message};
    forall m | m in table ensures exists k :: 0 <= k < n + 1 && r.outputs[k].message == m {
      if m != r.outputs[n].message { assert m in table - {r.outputs[n].message}; }
    }
  }

  lemma Repeated(expected: seq<Blinded>, r: Response, i: nat)
    requires i < |expected| && expected[i].message in Messages(expected[..i])
    ensures !Answers(expected, r)
  {
    var b :| b in expected[..i] && b.message == expected[i].message;
    var k :| 0 <= k < i && expected[..i][k] == b;
    assert expected[k].message == expected[i].message;
  }

  lemma Unmatched(expected: seq<Blinded>, r: Response, i: nat, table: map<nat, Signature>)
    requires |r.outputs| == |r.signatures| && i < |expected| && Collected(r, |r.outputs|, table)
    requires expected[i].message !in table || table[expected[i].message].keyset != expected[i].keyset || table[expected[i].message].amount != expected[i].amount
    ensures !Answers(expected, r)
  {
    if Answers(expected, r) { HasSignature(expected, r, i); }
  }

  lemma HasSignature(expected: seq<Blinded>, r: Response, i: nat)
    requires Answers(expected, r) && i < |expected|
    ensures exists k :: 0 <= k < |r.outputs| && r.outputs[k] == expected[i] && SignedFor(r, k)
  {
    assert expected[i] in multiset(r.outputs);
    var k :| 0 <= k < |r.outputs| && r.outputs[k] == expected[i];
    assert SignedFor(r, k);
  }

  lemma FoundNext(r: Response, b: Blinded, table: map<nat, Signature>)
    requires |r.outputs| == |r.signatures| && Collected(r, |r.outputs|, table)
    requires b.message in table && table[b.message].keyset == b.keyset && table[b.message].amount == b.amount
    ensures FoundAt(r, b, table[b.message])
  {
    var k :| 0 <= k < |r.outputs| && r.outputs[k].message == b.message;
    assert SignedFor(r, k) && r.signatures[k] == Some(table[b.message]);
    assert r.outputs[k] == b;
  }

  lemma AllFound(expected: seq<Blinded>, r: Response, found: seq<Signature>)
    requires |r.outputs| == |r.signatures| == |expected| == |found| && DistinctMessages(expected) && DistinctMessages(r.outputs)
    requires forall k :: 0 <= k < |r.outputs| ==> SignedFor(r, k)
    requires forall i :: 0 <= i < |expected| ==> FoundAt(r, expected[i], found[i])
    ensures Answers(expected, r)
  {
    forall b | b in expected ensures b in r.outputs {
      var i :| 0 <= i < |expected| && expected[i] == b;
      assert FoundAt(r, expected[i], found[i]);
    }
    assert Messages(expected) <= Messages(r.outputs);
    EqualMessages(expected, r.outputs);
    forall b | b in r.outputs ensures b in expected {
      assert b.message in Messages(expected);
      var e :| e in expected && e.message == b.message;
      assert e in r.outputs;
    }
    SameCount(r.outputs, expected);
  }

  // ---- what follows from a match ----

  /** The signatures for the stored outputs, in stored order. */
  predicate Matches(expected: seq<Blinded>, r: Response, matched: seq<Signature>) {
    Answers(expected, r) && |matched| == |expected| && forall i :: 0 <= i < |expected| ==> FoundAt(r, expected[i], matched[i])
  }

  /** The order in which the mint lists its answer does not matter: a reordered answer, its pairs
      kept together, gives the very same signatures. */
  lemma OrderIrrelevant(expected: seq<Blinded>, r: Response, s: Response, m: seq<Signature>, n: seq<Signature>)
    requires Matches(expected, r, m) && Matches(expected, s, n)
    requires forall k :: 0 <= k < |r.outputs| ==> exists l :: 0 <= l < |s.outputs| && s.outputs[l] == r.outputs[k] && s.signatures[l] == r.signatures[k]
    ensures m == n
  {
    DistinctPermutation(s.outputs, expected);
    forall i | 0 <= i < |expected| ensures m[i] == n[i] {
      assert FoundAt(r, expected[i], m[i]) && FoundAt(s, expected[i], n[i]);
      var k :| 0 <= k < |r.outputs| && r.outputs[k] == expected[i] && r.signatures[k] == Some(m[i]);
      var l :| 0 <= l < |s.outputs| && s.outputs[l] == r.outputs[k] && s.signatures[l] == r.signatures[k];
      var p :| 0 <= p < |s.outputs| && s.outputs[p] == expected[i] && s.signatures[p] == Some(n[i]);
      assert p == l;
    }
  }

  function OutputTotal(bs: seq<Blinded>): nat {
    if bs == [] then 0 else bs[0].amount + OutputTotal(bs[1..])
  }

  function SignatureTotal(ss: seq<Signature>): nat {
    if ss == [] then 0 else ss[0].amount + SignatureTotal(ss[1..])
  }

  lemma {:induction false} TotalsAgree(bs: seq<Blinded>, ss: seq<Signature>)
    requires |bs| == |ss| && forall i :: 0 <= i < |bs| ==> bs[i].amount == ss[i].amount
    ensures OutputTotal(bs) == SignatureTotal(ss)
  {
    if bs != [] { TotalsAgree(bs[1..], ss[1..]); }
  }

  /** Restored signatures carry exactly the value of the stored outputs. */
  lemma MatchKeepsValue(expected: seq<Blinded>, r: Response, matched: seq<Signature>)
    requires Matches(expected, r, matched)
    ensures SignatureTotal(matched) == OutputTotal(expected)
  {
    forall i | 0 <= i < |expected| ensures expected[i].amount == matched[i].amount {
      assert FoundAt(r, expected[i], matched[i]);
      var k :| 0 <= k < |r.outputs| && r.outputs[k] == expected[i] && r.signatures[k] == Some(matched[i]);
      assert SignedFor(r, k);
    }
    TotalsAgree(expected, matched);
  }

  // ---- restoring outputs and swaps ----

  /** A stored output: what was sent to the mint, and the secret that turns a signature into a proof. */
  datatype Output = Output(blinded: Blinded, secret: nat)

  datatype Proof = Proof(secret: nat, keyset: nat, amount: nat, point: nat)

  function Sent(os: seq<Output>): seq<Blinded> { seq(|os|, i requires 0 <= i < |os| => os[i].blinded) }

  function ToProof(o: Output, s: Signature): Proof { Proof(o.secret, s.keyset, s.amount, s.point) }

  /** A proof made from the signature the response gives for a stored output. */
  predicate RestoredAs(r: Response, o: Output, p: Proof) {
    p.secret == o.secret && FoundAt(r, o.blinded, Signature(p.keyset, p.amount, p.point))
  }

  predicate Restores(os: seq<Output>, r: Response, ps: seq<Proof>) {
    && Answers(Sent(os), r) && |ps| == |os|
    && forall i :: 0 <= i < |os| ==> RestoredAs(r, os[i], ps[i])
  }

  /** Output `i` fails: no proof can be built for its signature, as for an unknown keyset, or the proof
      lacks a valid equality proof where the mint promises one. */
  predicate Fails(os: seq<Output>, r: Response, i: nat, builds: (Output, Signature) -> bool, requireDleq: bool, validDleq: Proof -> bool, s: Signature)
    requires i < |os|
  {
    FoundAt(r, os[i].blinded, s) && (!builds(os[i], s) || (requireDleq && !validDleq(ToProof(os[i], s))))
  }

  /** The answer gives every stored output a usable proof. */
  ghost predicate Restorable(os: seq<Output>, answer: Option<Response>, builds: (Output, Signature) -> bool, requireDleq: bool, validDleq: Proof -> bool) {
    os == [] || (answer.Some? && Answers(Sent(os), answer.value)
                 && forall i, s :: 0 <= i < |os| ==> !Fails(os, answer.value, i, builds, requireDleq, validDleq, s))
  }

  /** `tryRestoreOutputs`: succeeds exactly when the answer matches and gives every stored output a
      usable proof, and then returns these proofs in stored order. */
  method TryRestoreOutputs(os: seq<Output>, answer: Option<Response>, builds: (Output, Signature) -> bool, requireDleq: bool, validDleq: Proof -> bool)
    returns (restored: Option<seq<Proof>>)
    ensures restored.Some? <==> Restorable(os, answer, builds, requireDleq, validDleq)
    ensures os == [] ==> restored == Some([])
    ensures os != [] && restored.Some? ==> answer.Some? && Restores(os, answer.value, restored.value)
  {
    hide Answers, FoundAt;
    if os == [] { return Some([]); }
    if answer.None? { return None; }
    var signatures := MatchRestored(Sent(os), answer.value);
    if signatures.None? { return None; }
    var proofs: seq<Proof> := [];
    var index := 0;
    while index < |os|
      invariant 0 <= index <= |os| && |proofs| == index
      invariant forall i :: 0 <= i < index ==> proofs[i] == ToProof(os[i], signatures.value[i])
      invariant forall i :: 0 <= i < index ==> builds(os[i], signatures.value[i]) && (requireDleq ==> validDleq(proofs[i]))
    {
      assert FoundAt(answer.value, Sent(os)[index], signatures.value[index]);
      var output, signature := os[index], signatures.value[index];
      if !builds(output, signature) || (requireDleq && !validDleq(ToProof(output, signature))) {
        assert Fails(os, answer.value, index, builds, requireDleq, validDleq, signature);
        return None;
      }
      proofs := proofs + [ToProof(output, signature)];
      index := index + 1;
    }
    forall i | 0 <= i < |os| ensures RestoredAs(answer.value, os[i], proofs[i]) {
      assert FoundAt(answer.value, Sent(os)[i], signatures.value[i]);
    }
    forall i, s | 0 <= i < |os| && FoundAt(answer.value, os[i].blinded, s) ensures s == signatures.value[i] {
      assert FoundAt(answer.value, Sent(os)[i], signatures.value[i]);
      OneSignature(Sent(os), answer.value, os[i].blinded, s, signatures.value[i]);
    }
    return Some(proofs);
  }

  /** A response that answers the outputs gives each of them one signature. */
  lemma OneSignature(expected: seq<Blinded>, r: Response, b: Blinded, s: Signature, t: Signature)
    requires Answers(expected, r) && FoundAt(r, b, s) && FoundAt(r, b, t)
    ensures s == t
  {
    DistinctPermutation(r.outputs, expected);
  }

  /** The answer lists the stored outputs in any order, each with the signature the mint made for it. */
  predicate Lists(r: Response, os: seq<Output>, sigs: seq<Signature>)
    requires |sigs| == |os|
  {
    && |r.outputs| == |r.signatures| == |os| && (forall i :: 0 <= i < |os| ==> os[i].blinded in r.outputs)
    && forall k :: 0 <= k < |os| ==> exists i :: 0 <= i < |os| && r.outputs[k] == os[i].blinded && r.signatures[k] == Some(sigs[i])
  }

  /** When the mint lists every stored output, in any order, with a signature for its keyset and amount,
      restoring succeeds exactly if each of these signatures gives a proof, with a valid equality proof
      where one is required. */
  lemma ListedRestores(os: seq<Output>, r: Response, sigs: seq<Signature>, builds: (Output, Signature) -> bool, requireDleq: bool, validDleq: Proof -> bool)
    requires |sigs| == |os| && DistinctMessages(Sent(os)) && Lists(r, os, sigs)
    requires forall i :: 0 <= i < |os| ==> sigs[i].keyset == os[i].blinded.keyset && sigs[i].amount == os[i].blinded.amount
    ensures Restorable(os, Some(r), builds, requireDleq, validDleq) <==>
      forall i :: 0 <= i < |os| ==>
        builds(os[i], sigs[i]) && (requireDleq ==> validDleq(Proof(os[i].secret, sigs[i].keyset, sigs[i].amount, sigs[i].point)))
  {
    ListedAnswers(os, r, sigs);
    forall i, s | 0 <= i < |os| ensures FoundAt(r, os[i].blinded, s) <==> s == sigs[i] {
      ListedFound(os, r, sigs, i);
      if FoundAt(r, os[i].blinded, s) { OneSignature(Sent(os), r, os[i].blinded, s, sigs[i]); }
    }
    hide Answers, FoundAt, Lists, Sent, DistinctMessages;
    if Restorable(os, Some(r), builds, requireDleq, validDleq) {
      forall i | 0 <= i < |os|
        ensures builds(os[i], sigs[i]) && (requireDleq ==> validDleq(Proof(os[i].secret, sigs[i].keyset, sigs[i].amount, sigs[i].point)))
      {
        assert !Fails(os, r, i, builds, requireDleq, validDleq, sigs[i]);
      }
    }
  }

  lemma ListedFound(os: seq<Output>, r: Response, sigs: seq<Signature>, i: nat)
    requires |sigs| == |os| && DistinctMessages(Sent(os)) && Lists(r, os, sigs) && i < |os|
    ensures FoundAt(r, os[i].blinded, sigs[i])
  {
    var k :| 0 <= k < |os| && r.outputs[k] == os[i].blinded;
    var j :| 0 <= j < |os| && r.outputs[k] == os[j].blinded && r.signatures[k] == Some(sigs[j]);
    assert Sent(os)[i].message == os[i].blinded.message && Sent(os)[j].message == os[j].blinded.message;
  }

  /** As many messages as outputs: no two outputs share one. */
  lemma {:induction false} AllMessages(bs: seq<Blinded>)
    ensures |Messages(bs)| <= |bs| && (|Messages(bs)| == |bs| ==> DistinctMessages(bs))
  {
    if bs == [] {
      assert Messages(bs) == {};
    } else {
      AllMessages(bs[1..]);
      assert bs == [bs[0]] + bs[1..];
      var rest := Messages(bs[1..]);
      assert Messages(bs) == {bs[0].message} + rest;
      assert bs[0].message in rest ==> Messages(bs) == rest;
      if |Messages(bs)| == |bs| {
        forall i, j | 0 <= i < j < |bs| ensures bs[i].message != bs[j].message {
          assert bs[j] == bs[1..][j - 1];
          if i == 0 { assert bs[j] in bs[1..]; } else { assert bs[i] == bs[1..][i - 1]; }
        }
      }
    }
  }

  lemma ListedDistinct(os: seq<Output>, r: Response, sigs: seq<Signature>)
    requires |sigs| == |os| && DistinctMessages(Sent(os)) && Lists(r, os, sigs)
    ensures DistinctMessages(r.outputs)
  {
    MessageCount(Sent(os));
    AllMessages(r.outputs);
    forall m | m in Messages(Sent(os)) ensures m in Messages(r.outputs) {
      var b :| b in Sent(os) && b.message == m;
      var i :| 0 <= i < |os| && Sent(os)[i] == b;
      assert os[i].blinded in r.outputs;
    }
    assert Messages(r.outputs) == Messages(Sent(os)) + (Messages(r.outputs) - Messages(Sent(os)));
  }

  lemma ListedAnswers(os: seq<Output>, r: Response, sigs: seq<Signature>)
    requires |sigs| == |os| && DistinctMessages(Sent(os)) && Lists(r, os, sigs)
    requires forall i :: 0 <= i < |os| ==> sigs[i].keyset == os[i].blinded.keyset && sigs[i].amount == os[i].blinded.amount
    ensures Answers(Sent(os), r)
  {
    ListedDistinct(os, r, sigs);
    forall i | 0 <= i < |os| ensures FoundAt(r, Sent(os)[i], sigs[i]) { ListedFound(os, r, sigs, i); }
    AllFound(Sent(os), r, sigs);
  }

  /** Proofs over exactly these outputs: their secrets, keysets and amounts, in order. */
  predicate MadeFrom(os: seq<Output>, ps: seq<Proof>) {
    |ps| == |os| && forall i :: 0 <= i < |os| ==>
      ps[i].secret == os[i].secret && ps[i].keyset == os[i].blinded.keyset && ps[i].amount == os[i].blinded.amount
  }

  lemma RestoredMade(os: seq<Output>, r: Response, ps: seq<Proof>)
    requires Restores(os, r, ps)
    ensures MadeFrom(os, ps)
  {
    forall i | 0 <= i < |os| ensures ps[i].secret == os[i].secret && ps[i].keyset == os[i].blinded.keyset && ps[i].amount == os[i].blinded.amount {
      assert RestoredAs(r, os[i], ps[i]);
      var k :| 0 <= k < |r.outputs| && r.outputs[k] == os[i].blinded && r.signatures[k] == Some(Signature(ps[i].keyset, ps[i].amount, ps[i].point));
      assert SignedFor(r, k);
    }
  }

  /** What a completed swap hands to the wallet: proofs to keep and proofs to send. */
  datatype SwapResult = SwapResult(keep: seq<Proof>, send: seq<Proof>)

  /** What the library returns for a swap: fresh proofs for its outputs, and after those to keep the
      proofs that the selection left alone. */
  predicate Completes(keep: seq<Output>, send: seq<Output>, unselected: seq<Proof>, result: SwapResult) {
    && |keep| <= |result.keep| && MadeFrom(keep, result.keep[..|keep|]) && result.keep[|keep|..] == unselected && MadeFrom(send, result.send)
  }

  /** `tryRestoreSwap`: a restored swap looks like a completed one. */
  method TryRestoreSwap(keep: seq<Output>, send: seq<Output>, unselected: seq<Proof>, answer: Option<Response>, builds: (Output, Signature) -> bool,
                        requireDleq: bool, validDleq: Proof -> bool) returns (result: Option<SwapResult>)
    ensures result.Some? <==> Restorable(keep + send, answer, builds, requireDleq, validDleq)
    ensures result.Some? ==> Completes(keep, send, unselected, result.value)
  {
    hide Restorable, Restores;
    var restored := TryRestoreOutputs(keep + send, answer, builds, requireDleq, validDleq);
    if restored.None? { return None; }
    if keep + send != [] { RestoredMade(keep + send, answer.value, restored.value); }
    assert MadeFrom(keep + send, restored.value);
    return Some(SwapResult(restored.value[..|keep|] + unselected, restored.value[|keep|..]));
  }

  /** `completePreparedSend`, answered or not: the token holds exactly the outputs to send, and the
      change exactly those to keep; the unselected proofs, already in the live snapshot, are not
      handed out again. It fails only if the call failed and the swap cannot be restored. */
  method CompletePreparedSend(keep: seq<Output>, send: seq<Output>, unselected: seq<Proof>, called: Option<SwapResult>, answer: Option<Response>,
                              builds: (Output, Signature) -> bool, requireDleq: bool, validDleq: Proof -> bool)
    returns (done: Option<SwapResult>)
    requires called.Some? ==> Completes(keep, send, unselected, called.value)
    ensures done.Some? <==> called.Some? || Restorable(keep + send, answer, builds, requireDleq, validDleq)
    ensures done.Some? ==> MadeFrom(keep, done.value.keep) && MadeFrom(send, done.value.send)
  {
    hide Restorable;
    var result := called;
    if result.None? { result := TryRestoreSwap(keep, send, unselected, answer, builds, requireDleq, validDleq); }
    if result.None? { return None; }
    return Some(SwapResult(result.value.keep[..|keep|], result.value.send));
  }

  // ---- the state of several proofs ----

  /** What the mint may say of a proof, and what the wallet makes of several. */
  datatype ProofState = UNSPENT | PENDING | SPENT | Other(code: nat)

  datatype SpendState = Unspent | Pending | Spent | Mixed

  /** `checkProofsState`: the one known state all proofs have, or mixed; no proofs have no state. */
  method CheckProofsState(states: seq<ProofState>) returns (state: Option<SpendState>)
    ensures state.None? <==> states == []
    ensures state == Some(Unspent) <==> states != [] && forall s :: s in states ==> s == UNSPENT
    ensures state == Some(Pending) <==> states != [] && forall s :: s in states ==> s == PENDING
    ensures state == Some(Spent) <==> states != [] && forall s :: s in states ==> s == SPENT
    ensures state == Some(Mixed) <==>
      states != [] && (exists s :: s in states && s != UNSPENT) && (exists s :: s in states && s != PENDING) && (exists s :: s in states && s != SPENT)
  {
    if states == [] { return None; }
    var first := states[0];
    assert first in states;
    var unique := set s | s in states;
    if |unique| != 1 {
      assert unique != {first};
      var other :| other in states && other != first;
      return Some(Mixed);
    }
    OnlyMember(unique, first);
    forall s | s in states ensures s == first { assert s in unique; }
    match first {
      case UNSPENT => return Some(Unspent);
      case PENDING => return Some(Pending);
      case SPENT => return Some(Spent);
      case Other(_) => return Some(Mixed);
    }
  }

  lemma OnlyMember(u: set<ProofState>, s: ProofState)
    requires |u| == 1 && s in u
    ensures u == {s}
  {
    assert |u - {s}| == 0;
  }
}
