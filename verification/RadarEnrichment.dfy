/** The Radar's enrichment: match briefs for a list of slugs, asked for chunk by chunk. */
module RadarEnrichment {
  import opened Ordering
  import opened MatchEvaluator
  import opened MatchBriefs
  import RadarFeed

  function FreshFor(ev: Evaluator, q: Query, jobs: map<string, JobFacts>): seq<string> -> seq<Brief> {
    (slugs: seq<string>) => Fresh(ev, q, jobs, slugs)
  }

  lemma FreshForDistributes(ev: Evaluator, q: Query, jobs: map<string, JobFacts>)
    ensures var fn := FreshFor(ev, q, jobs);
      fn([]) == [] && forall a, b :: fn(a + b) == fn(a) + fn(b)
  {
    var fn := FreshFor(ev, q, jobs);
    forall a, b ensures fn(a + b) == fn(a) + fn(b) {
      FreshDistributes(ev, q, jobs, a, b);
    }
  }

  /** Asking for the briefs in chunks of fifty and joining the answers is asking for them
      all at once. */
  method Enrich(ev: Evaluator, q: Query, jobs: map<string, JobFacts>, slugs: seq<string>) returns (batches: seq<seq<Brief>>)
    ensures RadarFeed.Flatten(batches) == Fresh(ev, q, jobs, slugs)
    ensures |batches| == (|slugs| + RadarFeed.CHUNK_SIZE - 1) / RadarFeed.CHUNK_SIZE
  {
    FreshForDistributes(ev, q, jobs);
    batches := RadarFeed.Chunked(slugs, FreshFor(ev, q, jobs));
  }
}
