/** The shared records of the application (src/types.ts). */
module Types {

  /** A cited web page; `uri` is the identity used for deduplication. */
  datatype GroundingSource = GroundingSource(title: string, uri: string)

  /** One generated briefing. `timestamp` is an opaque ISO date string. */
  datatype BriefingData = BriefingData(timestamp: string, summary: string, sources: seq<GroundingSource>)

  /** The five-valued run status shared by the orchestrator and the scheduler. */
  datatype AppStatus = IDLE | FETCHING | SUMMARIZING | COMPLETED | ERROR

  /** The set of uris mentioned by a list of sources. */
  function Uris(xs: seq<GroundingSource>): set<string>
  {
    set i | 0 <= i < |xs| :: xs[i].uri
  }

  /** No two sources of the list share a uri. */
  predicate DistinctUris(xs: seq<GroundingSource>)
  {
    forall i, j :: 0 <= i < j < |xs| ==> xs[i].uri != xs[j].uri
  }
}
