/** Batched embedding (backend/app/embeddings.py). The embedding service is a parameter
    mapping one batch of texts to its vectors, `Err` when the call raised. */
module Embeddings {
  import opened Wrappers

  /** Texts per embedding call. */
  const BatchSize: nat := 64

  type Vector = seq<real>

  /** The consecutive slices of at most 64 texts the loop sends, in order. */
  function Batches(texts: seq<string>): seq<seq<string>>
    decreases |texts|
  {
    if texts == [] then []
    else
      var n := Min(BatchSize, |texts|);
      [texts[..n]] + Batches(texts[n..])
  }

  function Flatten<T>(xss: seq<seq<T>>): seq<T>
  {
    if xss == [] then [] else xss[0] + Flatten(xss[1..])
  }

  /** Every batch holds between 1 and 64 texts. */
  lemma {:induction false} BatchSizes(texts: seq<string>)
    ensures forall b :: 0 <= b < |Batches(texts)| ==> 0 < |Batches(texts)[b]| <= BatchSize
    decreases |texts|
  {
    if texts != [] {
      var n := Min(BatchSize, |texts|);
      BatchSizes(texts[n..]);
      assert forall b :: 1 <= b < |Batches(texts)| ==> Batches(texts)[b] == Batches(texts[n..])[b - 1];
    }
  }

  /** The batches cover the input exactly, in order. */
  lemma {:induction false} BatchesCover(texts: seq<string>)
    ensures Flatten(Batches(texts)) == texts
    decreases |texts|
  {
    if texts != [] {
      var n := Min(BatchSize, |texts|);
      BatchesCover(texts[n..]);
      assert Batches(texts)[1..] == Batches(texts[n..]);
      assert texts[..n] + texts[n..] == texts;
    }
  }

  /** There are ceil(n / 64) batches: one embedding call per started block of 64. */
  lemma {:induction false} BatchCount(texts: seq<string>)
    ensures |Batches(texts)| == (|texts| + BatchSize - 1) / BatchSize
    decreases |texts|
  {
    if texts != [] {
      var n := Min(BatchSize, |texts|);
      BatchCount(texts[n..]);
      if |texts| > BatchSize {
        assert (|texts| + BatchSize - 1) / BatchSize == (|texts[n..]| + BatchSize - 1) / BatchSize + 1;
      }
    }
  }

  /** The vectors of all batches, concatenated in batch order, or the first batch error. */
  function EmbedAll(batches: seq<seq<string>>, embed: seq<string> -> Result<seq<Vector>>): Result<seq<Vector>>
  {
    if batches == [] then Ok([])
    else match embed(batches[0])
      case Err(e) => Err(e)
      case Ok(vs) =>
        match EmbedAll(batches[1..], embed)
        case Err(e) => Err(e)
        case Ok(rest) => Ok(vs + rest)
  }

  /** The embedding succeeds iff every batch's call succeeds. */
  lemma {:induction false} EmbedAllOk(batches: seq<seq<string>>, embed: seq<string> -> Result<seq<Vector>>)
    ensures EmbedAll(batches, embed).Ok? <==> forall b :: 0 <= b < |batches| ==> embed(batches[b]).Ok?
  {
    if batches != [] {
      EmbedAllOk(batches[1..], embed);
      assert forall b :: 1 <= b < |batches| ==> batches[b] == batches[1..][b - 1];
    }
  }

  /** `embed_texts`: the vectors for every text in order, and the batches actually sent. The
      first failing call ends the loop and its error propagates; no partial list is returned. */
  method EmbedTexts(texts: seq<string>, embed: seq<string> -> Result<seq<Vector>>)
    returns (r: Result<seq<Vector>>, sent: seq<seq<string>>)
    ensures r == EmbedAll(Batches(texts), embed)
    ensures r.Ok? ==> sent == Batches(texts)
    ensures r.Err? ==>
      (0 < |sent| <= |Batches(texts)| && sent == Batches(texts)[..|sent|]
       && embed(sent[|sent| - 1]).Err? && forall b :: 0 <= b < |sent| - 1 ==> embed(sent[b]).Ok?)
    ensures texts == [] ==> sent == [] && r == Ok([])
  {
    var embeddings: seq<Vector> := [];
    sent := [];
    var i := 0;
    ghost var all := Batches(texts);
    ghost var total := EmbedAll(all, embed);
    ghost var todo := all;
    assert texts[i..] == texts;
    PrependEmpty(total);
    while i < |texts|
      invariant 0 <= i <= |texts|
      invariant todo == Batches(texts[i..])
      invariant all == sent + todo
      invariant forall b :: 0 <= b < |sent| ==> embed(sent[b]).Ok?
      invariant total == Prepend(embeddings, EmbedAll(todo, embed))
      decreases |texts| - i
    {
      var n := Min(BatchSize, |texts| - i);
      var batch := texts[i..i + n];
      var resp := embed(batch);
      LoopStep(texts, i, i + n, batch, all, sent, total, embeddings, resp, embed);
      SentStep(all, sent, batch, embed);
      sent := sent + [batch];
      todo := Batches(texts[i + n..]);
      if resp.Err? {
        r := Err(resp.error);
        return;
      }
      embeddings := embeddings + resp.value;
      i := i + n;
    }
    assert texts[i..] == [];
    assert todo == [];
    assert sent + [] == sent;
    PrependOk(embeddings);
    r := Ok(embeddings);
  }

  /** The batches sent so far are a prefix of all batches, and every one but the last succeeded. */
  lemma SentStep(all: seq<seq<string>>, sent: seq<seq<string>>, batch: seq<string>,
                 embed: seq<string> -> Result<seq<Vector>>)
    requires |sent| < |all| && sent + [batch] == all[..|sent| + 1]
    requires forall b :: 0 <= b < |sent| ==> embed(sent[b]).Ok?
    ensures var s := sent + [batch];
      0 < |s| <= |all| && s == all[..|s|] && s[|s| - 1] == batch
      && forall b :: 0 <= b < |s| - 1 ==> embed(s[b]).Ok?
    ensures embed(batch).Ok? ==> forall b :: 0 <= b < |sent| + 1 ==> embed((sent + [batch])[b]).Ok?
  {
    var s := sent + [batch];
    assert forall b :: 0 <= b < |sent| ==> s[b] == sent[b];
  }

  /** One turn of the loop: the batch sent next is the head of the batches still to send. */
  lemma LoopStep(texts: seq<string>, i: nat, next: nat, batch: seq<string>, all: seq<seq<string>>,
                 sent: seq<seq<string>>, total: Result<seq<Vector>>, acc: seq<Vector>,
                 resp: Result<seq<Vector>>, embed: seq<string> -> Result<seq<Vector>>)
    requires i < |texts| && next == i + Min(BatchSize, |texts| - i) && batch == texts[i..next]
    requires resp == embed(batch)
    requires all == sent + Batches(texts[i..])
    requires total == Prepend(acc, EmbedAll(Batches(texts[i..]), embed))
    ensures all == (sent + [batch]) + Batches(texts[next..])
    ensures sent + [batch] == all[..|sent| + 1]
    ensures resp.Err? ==> total == Err(resp.error)
    ensures resp.Ok? ==> total == Prepend(acc + resp.value, EmbedAll(Batches(texts[next..]), embed))
  {
    var later := Batches(texts[next..]);
    BatchStep(texts, i);
    assert all == (sent + [batch]) + later;
    assert (sent + [batch]) == ((sent + [batch]) + later)[..|sent| + 1];
    EmbedStep(acc, batch, later, embed);
  }

  lemma PrependEmpty(r: Result<seq<Vector>>)
    ensures Prepend([], r) == r
  {
    if r.Ok? {
      assert [] + r.value == r.value;
    }
  }

  lemma PrependOk(acc: seq<Vector>)
    ensures Prepend(acc, Ok([])) == Ok(acc)
  {
    assert acc + [] == acc;
  }

  lemma BatchStep(texts: seq<string>, i: nat)
    requires i < |texts|
    ensures Batches(texts[i..]) == [texts[i..i + Min(BatchSize, |texts| - i)]] + Batches(texts[i + Min(BatchSize, |texts| - i)..])
  {
    var n := Min(BatchSize, |texts| - i);
    assert texts[i..][..n] == texts[i..i + n];
    assert texts[i..][n..] == texts[i + n..];
  }

  lemma EmbedStep(acc: seq<Vector>, batch: seq<string>, rest: seq<seq<string>>, embed: seq<string> -> Result<seq<Vector>>)
    ensures embed(batch).Err? ==> Prepend(acc, EmbedAll([batch] + rest, embed)) == Err(embed(batch).error)
    ensures embed(batch).Ok? ==>
      Prepend(acc, EmbedAll([batch] + rest, embed)) == Prepend(acc + embed(batch).value, EmbedAll(rest, embed))
  {
    assert ([batch] + rest)[0] == batch;
    assert ([batch] + rest)[1..] == rest;
    if embed(batch).Ok? && EmbedAll(rest, embed).Ok? {
      assert acc + (embed(batch).value + EmbedAll(rest, embed).value) == acc + embed(batch).value + EmbedAll(rest, embed).value;
    }
  }

  /** `acc` in front of the vectors of a successful result; errors pass through. */
  function Prepend(acc: seq<Vector>, r: Result<seq<Vector>>): Result<seq<Vector>>
  {
    match r
    case Ok(vs) => Ok(acc + vs)
    case Err(e) => Err(e)
  }

  /** On success each text gets the vectors its batch returned, in order: when every call
      returns one vector per text, there is exactly one vector per input text. */
  lemma {:induction false} OneVectorPerText(texts: seq<string>, embed: seq<string> -> Result<seq<Vector>>)
    requires forall b :: embed(b).Ok? ==> |embed(b).value| == |b|
    requires EmbedAll(Batches(texts), embed).Ok?
    ensures |EmbedAll(Batches(texts), embed).value| == |texts|
    decreases |texts|
  {
    if texts != [] {
      var n := Min(BatchSize, |texts|);
      assert Batches(texts)[1..] == Batches(texts[n..]);
      assert Batches(texts)[0] == texts[..n];
      OneVectorPerText(texts[n..], embed);
    }
  }
}
