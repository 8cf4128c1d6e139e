/** The knowledge service's embedding client (services/knowledge/services/embedder.py):
    texts are sent to the inference service in consecutive batches of ten and
    the returned vectors are concatenated in order. The HTTP call for one
    batch is a parameter of the model. */
module Embedder {
  import opened Common
  import opened Text

  const BATCH_SIZE: nat := 10

  /** The parts of the inference service's reply the client reads: the body
      text (quoted in the error message) and the outcome of `response.json()`
      followed by the `data[i]["embedding"]` lookups. That outcome is either the
      vectors or the text of the exception it raises (a JSONDecodeError's
      message, or a KeyError's quoted key such as `'data'`), which is an input
      of the model like the other library texts. */
  datatype EmbedBody = EmbedBody(text: string, vectors: Result<seq<Vector>, string>)

  /** `_embed_batch`: a non-200 reply, a body that does not decode to the
      expected shape or a transport error is an exception, re-raised with its
      own text. */
  function EmbedBatch(reply: Reply<EmbedBody>): (r: Result<seq<Vector>, string>)
    ensures r.Ok? <==> reply.Response? && reply.status == 200 && reply.body.vectors.Ok?
    ensures r.Ok? ==> r.value == reply.body.vectors.value
    ensures reply.Response? && reply.status != 200 ==>
      r == Err("Embedding service returned " + NatToString(reply.status) + ": " + reply.body.text)
    ensures reply.Response? && reply.status == 200 && reply.body.vectors.Err? ==>
      r == Err(reply.body.vectors.error)
    ensures reply.TransportError? ==> r == Err(reply.message)
  {
    match reply
    case TransportError(m) => Err(m)
    case Response(status, body) =>
      if status != 200 then
        Err("Embedding service returned " + NatToString(status) + ": " + body.text)
      else body.vectors
  }

  /** `texts[i:i + 10]` for i = 0, 10, 20, ...: the batches `embed_texts` sends. */
  function Batches(texts: seq<string>): seq<seq<string>>
    decreases |texts|
  {
    if |texts| == 0 then []
    else
      var n := Min(BATCH_SIZE, |texts|);
      [texts[..n]] + Batches(texts[n..])
  }

  function Flatten<T>(parts: seq<seq<T>>): seq<T> {
    if |parts| == 0 then [] else parts[0] + Flatten(parts[1..])
  }

  /** Puts `acc` in front of a successful result. */
  function Prepend(acc: seq<Vector>, r: Result<seq<Vector>, string>): Result<seq<Vector>, string> {
    match r
    case Ok(v) => Ok(acc + v)
    case Err(e) => Err(e)
  }

  function VectorsOf(r: Result<seq<Vector>, string>): seq<Vector> {
    if r.Ok? then r.value else []
  }

  /** The outcome of embedding the given batches one after the other, stopping
      at the first failure. */
  function EmbedAll(batches: seq<seq<string>>, post: seq<string> -> Reply<EmbedBody>): Result<seq<Vector>, string>
    decreases |batches|
  {
    if |batches| == 0 then Ok([])
    else
      match EmbedBatch(post(batches[0]))
      case Err(e) => Err(e)
      case Ok(v) => Prepend(v, EmbedAll(batches[1..], post))
  }

  /** The batches cover the input exactly and in order, there are
      ceil(n / 10) of them, and only the last may hold fewer than ten texts. */
  lemma {:induction false} BatchesShape(texts: seq<string>)
    ensures Flatten(Batches(texts)) == texts
    ensures |Batches(texts)| == (|texts| + BATCH_SIZE - 1) / BATCH_SIZE
    ensures forall k :: 0 <= k < |Batches(texts)| ==> 0 < |Batches(texts)[k]| <= BATCH_SIZE
    ensures forall k :: 0 <= k < |Batches(texts)| - 1 ==> |Batches(texts)[k]| == BATCH_SIZE
    decreases |texts|
  {
    if |texts| > 0 {
      var n := Min(BATCH_SIZE, |texts|);
      BatchesShape(texts[n..]);
      assert texts == texts[..n] + texts[n..];
      var bs := Batches(texts);
      assert bs[1..] == Batches(texts[n..]);
      if |texts| <= BATCH_SIZE {
        assert |texts[n..]| == 0;
      }
    }
  }

  /** Embedding succeeds exactly when every batch does, and then yields the
      batch results concatenated in order. */
  lemma {:induction false} EmbedAllSucceeds(batches: seq<seq<string>>, post: seq<string> -> Reply<EmbedBody>)
    ensures EmbedAll(batches, post).Ok? <==> forall k :: 0 <= k < |batches| ==> EmbedBatch(post(batches[k])).Ok?
    ensures EmbedAll(batches, post).Ok? ==>
      EmbedAll(batches, post).value == Flatten(seq(|batches|, k requires 0 <= k < |batches| => VectorsOf(EmbedBatch(post(batches[k])))))
    decreases |batches|
  {
    if |batches| > 0 {
      EmbedAllSucceeds(batches[1..], post);
      var rs := seq(|batches|, k requires 0 <= k < |batches| => VectorsOf(EmbedBatch(post(batches[k]))));
      assert rs[1..] == seq(|batches[1..]|, k requires 0 <= k < |batches[1..]| => VectorsOf(EmbedBatch(post(batches[1..][k]))));
      if forall k :: 0 <= k < |batches| ==> EmbedBatch(post(batches[k])).Ok? {
        assert EmbedBatch(post(batches[0])).Ok?;
        assert forall k :: 0 <= k < |batches[1..]| ==> EmbedBatch(post(batches[1..][k])).Ok?;
      }
    }
  }

  lemma BatchesStep(texts: seq<string>, i: nat)
    requires i < |texts|
    ensures Batches(texts[i..]) == [texts[i..Min(i + BATCH_SIZE, |texts|)]] + Batches(texts[Min(i + BATCH_SIZE, |texts|)..])
  {
    var n := Min(BATCH_SIZE, |texts| - i);
    assert texts[i..][..n] == texts[i..i + n];
    assert texts[i..][n..] == texts[i + n..];
  }

  lemma EmbedAllStep(b: seq<string>, rest: seq<seq<string>>, acc: seq<Vector>, post: seq<string> -> Reply<EmbedBody>)
    ensures EmbedBatch(post(b)).Err? ==> Prepend(acc, EmbedAll([b] + rest, post)) == EmbedBatch(post(b))
    ensures EmbedBatch(post(b)).Ok? ==>
      Prepend(acc, EmbedAll([b] + rest, post)) == Prepend(acc + EmbedBatch(post(b)).value, EmbedAll(rest, post))
  {
    assert ([b] + rest)[0] == b;
    assert ([b] + rest)[1..] == rest;
    var r := EmbedAll(rest, post);
    if EmbedBatch(post(b)).Ok? && r.Ok? {
      var v := EmbedBatch(post(b)).value;
      assert acc + (v + r.value) == acc + v + r.value;
    }
  }

  lemma PrefixOfConcat<T>(a: seq<T>, b: seq<T>)
    ensures a <= a + b
  {
    assert (a + b)[..|a|] == a;
  }

  lemma PrependNothing(r: Result<seq<Vector>, string>)
    ensures Prepend([], r) == r
  {
    if r.Ok? {
      assert [] + r.value == r.value;
    }
  }

  /** One turn of the loop of `embed_texts`: the next batch is sent, and the
      outcome so far either fails with it or grows by its vectors. */
  lemma EmbedStep(texts: seq<string>, i: nat, sent: seq<seq<string>>, all: seq<Vector>,
                  post: seq<string> -> Reply<EmbedBody>)
    requires i < |texts|
    requires Batches(texts) == sent + Batches(texts[i..])
    requires EmbedAll(Batches(texts), post) == Prepend(all, EmbedAll(Batches(texts[i..]), post))
    ensures var end := Min(i + BATCH_SIZE, |texts|);
      var batch := texts[i..end];
      Batches(texts) == (sent + [batch]) + Batches(texts[end..])
      && (EmbedBatch(post(batch)).Err? ==>
            EmbedAll(Batches(texts), post) == EmbedBatch(post(batch)) && sent + [batch] <= Batches(texts))
      && (EmbedBatch(post(batch)).Ok? ==>
            EmbedAll(Batches(texts), post) == Prepend(all + EmbedBatch(post(batch)).value, EmbedAll(Batches(texts[end..]), post)))
  {
    var end := Min(i + BATCH_SIZE, |texts|);
    var batch := texts[i..end];
    BatchesStep(texts, i);
    var rest := Batches(texts[end..]);
    SentStep(Batches(texts), sent, batch, rest);
    EmbedAllStep(batch, rest, all, post);
  }

  lemma SentStep(bs: seq<seq<string>>, sent: seq<seq<string>>, batch: seq<string>, rest: seq<seq<string>>)
    requires bs == sent + ([batch] + rest)
    ensures bs == (sent + [batch]) + rest && sent + [batch] <= bs
  {
    assert sent + ([batch] + rest) == (sent + [batch]) + rest;
    PrefixOfConcat(sent + [batch], rest);
  }

  /** `embed_texts`: the texts are posted batch by batch and the vectors
      collected in order; the first failing batch aborts the call. `sent`
      lists the batches posted, in order. */
  method EmbedTexts(texts: seq<string>, post: seq<string> -> Reply<EmbedBody>)
    returns (r: Result<seq<Vector>, string>, sent: seq<seq<string>>)
    ensures r == EmbedAll(Batches(texts), post)
    ensures r.Ok? ==> sent == Batches(texts)
    ensures r.Err? ==> 0 < |sent| && sent <= Batches(texts) && EmbedBatch(post(sent[|sent| - 1])).Err?
    ensures |texts| == 0 ==> sent == [] && r == Ok([])
  {
    var all: seq<Vector> := [];
    sent := [];
    var i := 0;
    assert texts[i..] == texts;
    PrependNothing(EmbedAll(Batches(texts), post));
    while i < |texts|
      invariant 0 <= i <= |texts|
      invariant Batches(texts) == sent + Batches(texts[i..])
      invariant EmbedAll(Batches(texts), post) == Prepend(all, EmbedAll(Batches(texts[i..]), post))
      decreases |texts| - i
    {
      var end := Min(i + BATCH_SIZE, |texts|);
      var batch := texts[i..end];
      EmbedStep(texts, i, sent, all, post);
      var outcome := EmbedBatch(post(batch));
      sent := sent + [batch];
      if outcome.Err? {
        r := outcome;
        return;
      }
      all := all + outcome.value;
      i := end;
    }
    assert texts[i..] == [];
    assert all + [] == all;
    r := Ok(all);
  }
}
