/**
 * What a review and a review in chunks give: the result of one review
 * keeps the model's reply and the contract it was given, the chunks are
 * reviewed in order until the first failure, and the merge joins the
 * per-chunk fields in chunk order.
 */
module ReviewProperties {
  import opened Wrappers
  import opened JsStrings
  import opened ReviewResults
  import opened ReviewProcessor
  import opened ParseProperties

  // ---------------------------------------------------------------------------
  // One review

  /** A review succeeds exactly when the template is known and the model answers. */
  lemma ReviewSucceeds(contractText: string, templateId: string, modelKey: string,
                       lookup: string -> Option<Template>,
                       generate: (string, string, GenerationOptions) -> Result<string>)
    ensures ReviewContract(contractText, templateId, modelKey, lookup, generate).Ok?
        <==> lookup(templateId).Some?
             && generate(modelKey, BuildReviewPrompt(contractText, lookup(templateId).value), ReviewOptions).Ok?
  {
  }

  /**
   * A model that answers in the requested layout gives a result whose
   * fields are the parts of that answer: the contract and the conclusion
   * trimmed, the two lists cut into items.
   */
  lemma ReviewOfWellFormedReply(contractText: string, templateId: string, modelKey: string,
                                lookup: string -> Option<Template>,
                                generate: (string, string, GenerationOptions) -> Result<string>,
                                lead: string, contract: string, opinion: string, risks: string,
                                recommendations: string, conclusion: string)
    requires lookup(templateId).Some?
    requires generate(modelKey, BuildReviewPrompt(contractText, lookup(templateId).value), ReviewOptions)
          == Ok(Reply(lead, contract, opinion, risks, recommendations, conclusion))
    requires NoHash(lead) && NoHash(contract) && NoHash(opinion) && NoHash(risks) && NoHash(recommendations)
    ensures ReviewContract(contractText, templateId, modelKey, lookup, generate)
         == Ok(ReviewResult(true, lookup(templateId).value.name, modelKey, contractText,
                 Trim(contract), Items(risks), Items(recommendations), Trim(conclusion),
                 Reply(lead, contract, opinion, risks, recommendations, conclusion)))
  {
    WellFormedReply(lead, contract, opinion, risks, recommendations, conclusion);
  }

  // ---------------------------------------------------------------------------
  // The chunks, one after the other

  /** All chunks are reviewed without error exactly when every review succeeds; then there is one result per chunk, in order. */
  lemma {:induction false} ReviewAllOk(chunks: seq<string>, review: string -> Result<ReviewResult>)
    ensures ReviewAll(chunks, review).Ok? <==> forall i :: 0 <= i < |chunks| ==> review(chunks[i]).Ok?
    ensures ReviewAll(chunks, review).Ok? ==>
      && |ReviewAll(chunks, review).value| == |chunks|
      && forall i :: 0 <= i < |chunks| ==> ReviewAll(chunks, review).value[i] == review(chunks[i]).value
    decreases |chunks|
  {
    if chunks != [] {
      var tail := chunks[1..];
      ReviewAllOk(tail, review);
      assert forall i :: 0 < i < |chunks| ==> chunks[i] == tail[i - 1];
      if ReviewAll(chunks, review).Ok? {
        var rs := ReviewAll(chunks, review).value;
        assert rs == [review(chunks[0]).value] + ReviewAll(tail, review).value;
      }
      if (forall i :: 0 <= i < |chunks| ==> review(chunks[i]).Ok?) {
        assert review(chunks[0]).Ok?;
        assert forall i :: 0 <= i < |tail| ==> review(tail[i]).Ok? by {
          forall i | 0 <= i < |tail| ensures review(tail[i]).Ok? {
            assert tail[i] == chunks[i + 1];
          }
        }
      }
    }
  }

  /** A failure is the failure of the first chunk whose review fails, after only successes. */
  lemma {:induction false} FirstFailure(chunks: seq<string>, review: string -> Result<ReviewResult>) returns (k: nat)
    requires ReviewAll(chunks, review).Err?
    ensures k < |chunks| && review(chunks[k]) == Err(ReviewAll(chunks, review).error)
    ensures forall i :: 0 <= i < k ==> review(chunks[i]).Ok?
    decreases |chunks|
  {
    if review(chunks[0]).Err? {
      k := 0;
    } else {
      var tail := chunks[1..];
      var k' := FirstFailure(tail, review);
      k := k' + 1;
      assert chunks[k] == tail[k'];
      forall i | 0 <= i < k ensures review(chunks[i]).Ok? {
        if i > 0 {
          assert chunks[i] == tail[i - 1];
        }
      }
    }
  }

  /** And conversely: the first failing chunk decides the outcome, whatever the chunks after it. */
  lemma {:induction false} FailureAt(chunks: seq<string>, review: string -> Result<ReviewResult>, k: nat)
    requires k < |chunks| && review(chunks[k]).Err?
    requires forall i :: 0 <= i < k ==> review(chunks[i]).Ok?
    ensures ReviewAll(chunks, review) == Err(review(chunks[k]).error)
    decreases k
  {
    if k > 0 {
      var tail := chunks[1..];
      assert tail[k - 1] == chunks[k];
      forall i | 0 <= i < k - 1 ensures review(tail[i]).Ok? {
        assert tail[i] == chunks[i + 1];
      }
      FailureAt(tail, review, k - 1);
    }
  }

  /**
   * The chunked review: no chunks fail at `results[0]`; otherwise it
   * succeeds exactly when every chunk's review does, and then merges the
   * results in chunk order.
   */
  lemma ChunkedReviewSpec(chunks: seq<string>, modelKey: string, review: string -> Result<ReviewResult>)
    ensures chunks == [] ==> ChunkedReview(chunks, modelKey, review) == Err(NoFirstResult)
    ensures ChunkedReview(chunks, modelKey, review).Ok?
        <==> chunks != [] && forall i :: 0 <= i < |chunks| ==> review(chunks[i]).Ok?
    ensures ChunkedReview(chunks, modelKey, review).Ok? ==>
      var results := ReviewAll(chunks, review).value;
      && |results| == |chunks| && (forall i :: 0 <= i < |chunks| ==> results[i] == review(chunks[i]).value)
      && ChunkedReview(chunks, modelKey, review).value == Merge(results, chunks, modelKey)
  {
    ReviewAllOk(chunks, review);
  }

  // ---------------------------------------------------------------------------
  // The merge

  /** One chunk: the merge holds that chunk's fields, with the chunk as the original contract. */
  lemma MergeSingle(r: ReviewResult, chunk: string, modelKey: string)
    ensures Merge([r], [chunk], modelKey) == r.(success := true, model := modelKey, originalContract := chunk)
  {
    assert Flatten([r.riskList]) == r.riskList + Flatten([]);
    assert Flatten([r.recommendations]) == r.recommendations + Flatten([]);
    assert Flatten([r.riskList]) == r.riskList;
    assert Flatten([r.recommendations]) == r.recommendations;
    assert Map([r], RevisedContractOf) == [r.revisedContract];
    assert Map([r], RiskListOf) == [r.riskList];
    assert Map([r], RecommendationsOf) == [r.recommendations];
    assert Map([r], ConclusionOf) == [r.complianceConclusion];
    assert Map([r], RawOutputOf) == [r.rawOutput];
  }

  /** A contract in one chunk is reviewed exactly as on its own. */
  lemma SingleChunk(chunk: string, templateId: string, modelKey: string,
                    lookup: string -> Option<Template>,
                    generate: (string, string, GenerationOptions) -> Result<string>)
    ensures ChunkedReview([chunk], modelKey, c => ReviewContract(c, templateId, modelKey, lookup, generate))
         == ReviewContract(chunk, templateId, modelKey, lookup, generate)
  {
    var review := c => ReviewContract(c, templateId, modelKey, lookup, generate);
    var one := ReviewContract(chunk, templateId, modelKey, lookup, generate);
    assert [chunk][0] == chunk && [chunk][1..] == [];
    assert review(chunk) == one;
    if one.Ok? {
      assert ReviewAll([chunk], review) == Ok([one.value]) by {
        assert [one.value] + [] == [one.value];
      }
      MergeSingle(one.value, chunk, modelKey);
    }
  }

  lemma {:induction false} FlattenAppend<T>(xss: seq<seq<T>>, yss: seq<seq<T>>)
    ensures Flatten(xss + yss) == Flatten(xss) + Flatten(yss)
    decreases |xss|
  {
    if xss == [] {
      assert xss + yss == yss;
    } else {
      assert (xss + yss)[1..] == xss[1..] + yss;
      FlattenAppend(xss[1..], yss);
    }
  }

  lemma {:induction false} JoinAppend(xs: seq<string>, ys: seq<string>, sep: string)
    requires xs != [] && ys != []
    ensures Join(xs + ys, sep) == Join(xs, sep) + sep + Join(ys, sep)
    decreases |xs|
  {
    if |xs| == 1 {
      assert (xs + ys)[1..] == ys;
    } else {
      assert (xs + ys)[1..] == xs[1..] + ys;
      JoinAppend(xs[1..], ys, sep);
    }
  }

  lemma MapAppend<A, B>(xs: seq<A>, ys: seq<A>, f: A -> B)
    ensures Map(xs + ys, f) == Map(xs, f) + Map(ys, f)
  {
  }

  /**
   * Merging is chunk order all the way down: merging two runs of chunks
   * gives the first run's template, each text field the two runs' fields
   * joined by a blank line (the replies by the `---` rule), and each list
   * the first run's items followed by the second's.
   */
  lemma MergeAppend(a: seq<ReviewResult>, b: seq<ReviewResult>, ca: seq<string>, cb: seq<string>, modelKey: string)
    requires a != [] && b != [] && ca != [] && cb != []
    ensures var ma, mb, m := Merge(a, ca, modelKey), Merge(b, cb, modelKey), Merge(a + b, ca + cb, modelKey);
      && m.template == ma.template
      && m.originalContract == ma.originalContract + "\n\n" + mb.originalContract
      && m.revisedContract == ma.revisedContract + "\n\n" + mb.revisedContract
      && m.riskList == ma.riskList + mb.riskList
      && m.recommendations == ma.recommendations + mb.recommendations
      && m.complianceConclusion == ma.complianceConclusion + "\n\n" + mb.complianceConclusion
      && m.rawOutput == ma.rawOutput + "\n\n---\n\n" + mb.rawOutput
  {
    JoinAppend(ca, cb, "\n\n");
    MergeTexts(a, b, RevisedContractOf, "\n\n");
    MergeTexts(a, b, ConclusionOf, "\n\n");
    MergeTexts(a, b, RawOutputOf, "\n\n---\n\n");
    MergeLists(a, b, RiskListOf);
    MergeLists(a, b, RecommendationsOf);
  }

  lemma MergeTexts(a: seq<ReviewResult>, b: seq<ReviewResult>, field: ReviewResult -> string, sep: string)
    requires a != [] && b != []
    ensures Join(Map(a + b, field), sep) == Join(Map(a, field), sep) + sep + Join(Map(b, field), sep)
  {
    MapAppend(a, b, field);
    JoinAppend(Map(a, field), Map(b, field), sep);
  }

  lemma MergeLists(a: seq<ReviewResult>, b: seq<ReviewResult>, field: ReviewResult -> seq<string>)
    ensures Flatten(Map(a + b, field)) == Flatten(Map(a, field)) + Flatten(Map(b, field))
  {
    MapAppend(a, b, field);
    FlattenAppend(Map(a, field), Map(b, field));
  }
}
