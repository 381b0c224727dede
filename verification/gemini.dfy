/** The briefing fetcher (src/services/geminiService.ts): the API-key check,
    the summary default, the extraction of cited web sources from the
    grounding metadata, their deduplication through a JavaScript `Map`, and
    the collapsing of every upstream failure into one message. The completion
    call itself is a parameter: what it answered, or that it failed. */
module Gemini {
  import opened Wrappers
  import opened Types
  import opened Text

  /** The `web` part of a grounding chunk; both fields may be absent. */
  datatype Web = Web(uri: Option<string>, title: Option<string>)

  datatype Chunk = Chunk(web: Option<Web>)

  /** What the completion call answered: `.text` and the chunks found at
      `candidates[0].groundingMetadata.groundingChunks` (absent anywhere along that path is `None`). */
  datatype Response = Response(text: Option<string>, groundingChunks: Option<seq<Chunk>>)

  /** The outcome of the one upstream request. */
  datatype Upstream = Responded(response: Response) | UpstreamFailed

  /** A fetch result together with the number of upstream requests issued. */
  datatype FetchTrace = FetchTrace(result: Result<BriefingData, string>, upstreamRequests: nat)

  const SummaryPlaceholder: string := "No summary generated."
  const MissingKeyMessage: string := "API Key is missing. Please check your environment configuration."
  const GenerationFailedMessage: string := "Failed to generate briefing. Please try again."

  /** `response.text || "No summary generated."` */
  function Summary(text: Option<string>): (r: string)
    ensures |r| > 0
    ensures Truthy(text) ==> r == text.value
    ensures !Truthy(text) ==> r == SummaryPlaceholder
  {
    if Truthy(text) then text.value else SummaryPlaceholder
  }

  /** The filter `web && web.uri && web.title`. */
  predicate Usable(web: Option<Web>)
  {
    web.Some? && Truthy(web.value.uri) && Truthy(web.value.title)
  }

  /** The projection `{ title: web.title, uri: web.uri }` of a usable chunk. */
  function Project(web: Option<Web>): GroundingSource
    requires Usable(web)
  {
    GroundingSource(web.value.title.value, web.value.uri.value)
  }

  /** The positions of the usable chunks: every one of them, each once, in increasing order. */
  function UsableIndices(chunks: seq<Chunk>): (idx: seq<nat>)
    ensures forall k :: 0 <= k < |idx| ==> idx[k] < |chunks| && Usable(chunks[idx[k]].web)
    ensures forall a, b :: 0 <= a < b < |idx| ==> idx[a] < idx[b]
    ensures forall i :: 0 <= i < |chunks| && Usable(chunks[i].web) ==> i in idx
  {
    if |chunks| == 0 then []
    else
      var n := |chunks| - 1;
      var front := UsableIndices(chunks[..n]);
      assert forall i :: 0 <= i < n ==> chunks[..n][i] == chunks[i];
      if Usable(chunks[n].web) then front + [n] else front
  }

  /** The map/filter/map pipeline over the raw chunks: usable chunks, projected, in order. */
  function UsableSources(chunks: seq<Chunk>): (r: seq<GroundingSource>)
    ensures |r| <= |chunks|
    ensures forall k :: 0 <= k < |r| ==> |r[k].uri| > 0 && |r[k].title| > 0
  {
    if |chunks| == 0 then []
    else
      var n := |chunks| - 1;
      var front := UsableSources(chunks[..n]);
      assert forall i :: 0 <= i < n ==> chunks[..n][i] == chunks[i];
      if Usable(chunks[n].web) then front + [Project(chunks[n].web)] else front
  }

  /** The pipeline keeps chunk order: the k-th source is the projection of the
      k-th usable chunk. */
  lemma {:induction false} UsableSourcesInOrder(chunks: seq<Chunk>)
    ensures |UsableSources(chunks)| == |UsableIndices(chunks)|
    ensures forall k :: 0 <= k < |UsableIndices(chunks)| ==>
      UsableSources(chunks)[k] == Project(chunks[UsableIndices(chunks)[k]].web)
  {
    if |chunks| > 0 {
      var n := |chunks| - 1;
      var front := chunks[..n];
      UsableSourcesInOrder(front);
      var fr := UsableSources(front);
      var fi := UsableIndices(front);
      forall k | 0 <= k < |fi| ensures fr[k] == Project(chunks[fi[k]].web) {
        assert front[fi[k]] == chunks[fi[k]];
      }
      if Usable(chunks[n].web) {
        assert UsableSources(chunks) == fr + [Project(chunks[n].web)];
        assert UsableIndices(chunks) == fi + [n];
      } else {
        assert UsableSources(chunks) == fr;
        assert UsableIndices(chunks) == fi;
      }
    }
  }

  /** Every usable chunk is cited, and every citation comes from a usable chunk. */
  lemma UsableSourcesMembers(chunks: seq<Chunk>)
    ensures forall i :: 0 <= i < |chunks| && Usable(chunks[i].web) ==> Project(chunks[i].web) in UsableSources(chunks)
    ensures forall k :: 0 <= k < |UsableSources(chunks)| ==>
      exists i :: 0 <= i < |chunks| && Usable(chunks[i].web) && UsableSources(chunks)[k] == Project(chunks[i].web)
  {
    var r := UsableSources(chunks);
    var idx := UsableIndices(chunks);
    UsableSourcesInOrder(chunks);
    forall i | 0 <= i < |chunks| && Usable(chunks[i].web) ensures Project(chunks[i].web) in r {
      var k :| 0 <= k < |idx| && idx[k] == i;
      assert r[k] == Project(chunks[i].web);
    }
    forall k | 0 <= k < |r|
      ensures exists i :: 0 <= i < |chunks| && Usable(chunks[i].web) && r[k] == Project(chunks[i].web)
    {
      assert Usable(chunks[idx[k]].web) && r[k] == Project(chunks[idx[k]].web);
    }
  }

  /** Nothing is dropped exactly when every chunk is usable. */
  lemma {:induction false} UsableSourcesKeepsAll(chunks: seq<Chunk>)
    ensures |UsableSources(chunks)| == |chunks| <==> forall i :: 0 <= i < |chunks| ==> Usable(chunks[i].web)
  {
    if |chunks| > 0 {
      var n := |chunks| - 1;
      var front := chunks[..n];
      UsableSourcesKeepsAll(front);
      assert |UsableSources(front)| <= n;
      assert |UsableSources(chunks)| == |UsableSources(front)| + (if Usable(chunks[n].web) then 1 else 0);
      if forall i :: 0 <= i < |chunks| ==> Usable(chunks[i].web) {
        forall i | 0 <= i < n ensures Usable(front[i].web) {
          assert front[i] == chunks[i];
        }
      } else if |UsableSources(chunks)| == |chunks| {
        assert Usable(chunks[n].web);
        forall i | 0 <= i < |chunks| ensures Usable(chunks[i].web) {
          if i < n {
            assert front[i] == chunks[i];
          }
        }
      }
    }
  }

  /** The index of the first source carrying uri `u`. */
  function FirstIndex(xs: seq<GroundingSource>, u: string): (i: nat)
    requires u in Uris(xs)
    ensures i < |xs| && xs[i].uri == u
    ensures forall j :: 0 <= j < i ==> xs[j].uri != u
  {
    var n := |xs| - 1;
    if u in Uris(xs[..n]) then
      var i := FirstIndex(xs[..n], u);
      assert forall j :: 0 <= j < i ==> xs[..n][j] == xs[j];
      i
    else
      assert forall j :: 0 <= j < n ==> xs[j] == xs[..n][j];
      n
  }

  /** The index of the last source carrying uri `u`. */
  function LastIndex(xs: seq<GroundingSource>, u: string): (i: nat)
    requires u in Uris(xs)
    ensures i < |xs| && xs[i].uri == u
    ensures forall j :: i < j < |xs| ==> xs[j].uri != u
  {
    var n := |xs| - 1;
    if xs[n].uri == u then n
    else
      assert u in Uris(xs[..n]) by {
        var k :| 0 <= k < |xs| && xs[k].uri == u;
        assert xs[..n][k] == xs[k];
      }
      LastIndex(xs[..n], u)
  }

  /** An ECMAScript `Map` from uri to source: the keys in insertion order and the current entries. */
  datatype SourceMap = SourceMap(keys: seq<string>, entries: map<string, GroundingSource>)

  function KeySet(keys: seq<string>): set<string>
  {
    set i | 0 <= i < |keys| :: keys[i]
  }

  predicate Valid(m: SourceMap)
  {
    && (forall i, j :: 0 <= i < j < |m.keys| ==> m.keys[i] != m.keys[j])
    && m.entries.Keys == KeySet(m.keys)
  }

  lemma KeySetSnoc(keys: seq<string>, k: string)
    ensures KeySet(keys + [k]) == KeySet(keys) + {k}
  {
    assert (keys + [k])[|keys|] == k;
    assert forall i :: 0 <= i < |keys| ==> (keys + [k])[i] == keys[i];
  }

  lemma UrisSnoc(xs: seq<GroundingSource>)
    requires |xs| > 0
    ensures Uris(xs) == Uris(xs[..|xs| - 1]) + {xs[|xs| - 1].uri}
  {
  }

  /** `Map.prototype.set`: an existing key keeps its position and takes the new
      value; a new key is appended at the end. */
  function MapSet(m: SourceMap, k: string, v: GroundingSource): (r: SourceMap)
    requires Valid(m)
    ensures Valid(r)
    ensures r.entries == m.entries[k := v]
    ensures k in m.entries ==> r.keys == m.keys
    ensures k !in m.entries ==> r.keys == m.keys + [k]
  {
    if k in m.entries then SourceMap(m.keys, m.entries[k := v])
    else
      KeySetSnoc(m.keys, k);
      SourceMap(m.keys + [k], m.entries[k := v])
  }

  /** `Array.from(map.values())`: the values in key order. */
  function Values(m: SourceMap): (r: seq<GroundingSource>)
    requires Valid(m)
    ensures |r| == |m.keys|
    ensures forall i :: 0 <= i < |r| ==> r[i] == m.entries[m.keys[i]]
  {
    seq(|m.keys|, i requires 0 <= i < |m.keys| => m.entries[m.keys[i]])
  }

  /** `new Map(xs.map(item => [item.uri, item]))`: the entries are set one by
      one in list order. */
  function FromEntries(xs: seq<GroundingSource>): (m: SourceMap)
    ensures Valid(m)
    ensures |m.keys| <= |xs|
    ensures m.entries.Keys == Uris(xs)
  {
    if |xs| == 0 then SourceMap([], map[])
    else
      var n := |xs| - 1;
      UrisSnoc(xs);
      MapSet(FromEntries(xs[..n]), xs[n].uri, xs[n])
  }

  /** Every uri of the map holds the source of that uri's last occurrence
      (a later `set` on an existing key overwrites the value). */
  lemma {:induction false} FromEntriesLastWins(xs: seq<GroundingSource>, u: string)
    requires u in Uris(xs)
    ensures FromEntries(xs).entries[u] == xs[LastIndex(xs, u)]
    decreases |xs|
  {
    var n := |xs| - 1;
    if xs[n].uri != u {
      UrisSnoc(xs);
      FromEntriesLastWins(xs[..n], u);
    }
  }

  /** The map's keys are ordered by first occurrence (a `set` on an existing
      key keeps its position). */
  lemma {:induction false} FromEntriesFirstOrder(xs: seq<GroundingSource>, i: int, j: int)
    requires 0 <= i < j < |FromEntries(xs).keys|
    ensures FromEntries(xs).keys[i] in Uris(xs) && FromEntries(xs).keys[j] in Uris(xs)
    ensures FirstIndex(xs, FromEntries(xs).keys[i]) < FirstIndex(xs, FromEntries(xs).keys[j])
    decreases |xs|
  {
    var n := |xs| - 1;
    var prefix := xs[..n];
    var m := FromEntries(prefix);
    var keys := FromEntries(xs).keys;
    UrisSnoc(xs);
    assert keys[i] in KeySet(keys) && keys[j] in KeySet(keys);
    if j < |m.keys| {
      assert keys[i] == m.keys[i] && keys[j] == m.keys[j];
      FromEntriesFirstOrder(prefix, i, j);
    } else {
      assert keys[i] == m.keys[i];
      assert keys[i] in KeySet(m.keys);
      assert keys[j] == xs[n].uri && xs[n].uri !in Uris(prefix);
    }
  }

  /** `Array.from(new Map(xs.map(item => [item.uri, item])).values())`. */
  function DedupByUri(xs: seq<GroundingSource>): (r: seq<GroundingSource>)
    ensures DistinctUris(r)
    ensures Uris(r) == Uris(xs)
    ensures |r| <= |xs|
  {
    var m := FromEntries(xs);
    var r := Values(m);
    forall i | 0 <= i < |r| ensures r[i].uri == m.keys[i] {
      assert m.keys[i] in KeySet(m.keys);
      FromEntriesLastWins(xs, m.keys[i]);
    }
    assert Uris(r) == KeySet(m.keys);
    r
  }

  /** For each uri the kept source is the one of its last occurrence in the input. */
  lemma DedupKeepsLast(xs: seq<GroundingSource>, k: int)
    requires 0 <= k < |DedupByUri(xs)|
    ensures DedupByUri(xs)[k].uri in Uris(xs)
    ensures DedupByUri(xs)[k] == xs[LastIndex(xs, DedupByUri(xs)[k].uri)]
  {
    var m := FromEntries(xs);
    assert m.keys[k] in KeySet(m.keys);
    FromEntriesLastWins(xs, m.keys[k]);
  }

  /** The output follows the order in which uris first occur in the input. */
  lemma DedupFirstOccurrenceOrder(xs: seq<GroundingSource>, i: int, j: int)
    requires 0 <= i < j < |DedupByUri(xs)|
    ensures DedupByUri(xs)[i].uri in Uris(xs) && DedupByUri(xs)[j].uri in Uris(xs)
    ensures FirstIndex(xs, DedupByUri(xs)[i].uri) < FirstIndex(xs, DedupByUri(xs)[j].uri)
  {
    var m := FromEntries(xs);
    DedupKeepsLast(xs, i);
    DedupKeepsLast(xs, j);
    assert m.keys[i] in KeySet(m.keys) && m.keys[j] in KeySet(m.keys);
    FromEntriesLastWins(xs, m.keys[i]);
    FromEntriesLastWins(xs, m.keys[j]);
    FromEntriesFirstOrder(xs, i, j);
  }

  /** An independent description of the deduplicated list: distinct uris,
      exactly the input's uris, each with its last source, in first-occurrence order. */
  predicate DedupSpec(xs: seq<GroundingSource>, r: seq<GroundingSource>)
  {
    && DistinctUris(r)
    && Uris(r) == Uris(xs)
    && (forall k :: 0 <= k < |r| ==> r[k].uri in Uris(xs) && r[k] == xs[LastIndex(xs, r[k].uri)])
    && (forall i, j :: 0 <= i < j < |r| ==>
          r[i].uri in Uris(xs) && r[j].uri in Uris(xs) && FirstIndex(xs, r[i].uri) < FirstIndex(xs, r[j].uri))
  }

  /** `DedupByUri` meets the description. */
  lemma DedupMeetsSpec(xs: seq<GroundingSource>)
    ensures DedupSpec(xs, DedupByUri(xs))
  {
    var r := DedupByUri(xs);
    forall k | 0 <= k < |r| ensures r[k].uri in Uris(xs) && r[k] == xs[LastIndex(xs, r[k].uri)] {
      DedupKeepsLast(xs, k);
    }
    forall i, j | 0 <= i < j < |r|
      ensures r[i].uri in Uris(xs) && r[j].uri in Uris(xs) && FirstIndex(xs, r[i].uri) < FirstIndex(xs, r[j].uri)
    {
      DedupFirstOccurrenceOrder(xs, i, j);
    }
  }

  /** Each element is the last source of its uri, and uris appear in strictly
      increasing order of first occurrence. */
  predicate LastSourcesInFirstOrder(xs: seq<GroundingSource>, r: seq<GroundingSource>)
  {
    && (forall k :: 0 <= k < |r| ==> r[k].uri in Uris(xs) && r[k] == xs[LastIndex(xs, r[k].uri)])
    && (forall i, j :: 0 <= i < j < |r| ==>
          r[i].uri in Uris(xs) && r[j].uri in Uris(xs) && FirstIndex(xs, r[i].uri) < FirstIndex(xs, r[j].uri))
  }

  /** Dropping the head keeps the shape and removes exactly the head's uri. */
  lemma LastSourcesInFirstOrderTail(xs: seq<GroundingSource>, r: seq<GroundingSource>)
    requires LastSourcesInFirstOrder(xs, r) && |r| > 0
    ensures LastSourcesInFirstOrder(xs, r[1..])
    ensures Uris(r[1..]) == Uris(r) - {r[0].uri}
  {
  }

  /** Two such lists over the same uris start with the same uri. */
  lemma LastSourcesInFirstOrderHead(xs: seq<GroundingSource>, r1: seq<GroundingSource>, r2: seq<GroundingSource>)
    requires LastSourcesInFirstOrder(xs, r1) && LastSourcesInFirstOrder(xs, r2)
    requires Uris(r1) == Uris(r2) && |r1| > 0
    ensures |r2| > 0 && r1[0] == r2[0]
  {
    assert r1[0].uri in Uris(r1);
    assert r2[0].uri in Uris(r2);
    var j :| 0 <= j < |r2| && r2[j].uri == r1[0].uri;
    var i :| 0 <= i < |r1| && r1[i].uri == r2[0].uri;
    HeadComesFirst(xs, r1, i);
    HeadComesFirst(xs, r2, j);
  }

  lemma HeadComesFirst(xs: seq<GroundingSource>, r: seq<GroundingSource>, k: int)
    requires LastSourcesInFirstOrder(xs, r) && 0 <= k < |r|
    ensures r[0].uri in Uris(xs) && r[k].uri in Uris(xs)
    ensures FirstIndex(xs, r[0].uri) <= FirstIndex(xs, r[k].uri)
  {
  }

  lemma UrisEmpty(r: seq<GroundingSource>)
    ensures Uris(r) == {} <==> |r| == 0
  {
    if |r| > 0 {
      assert r[0].uri in Uris(r);
    }
  }

  /** Two such lists over the same uris are equal. */
  lemma {:induction false} LastSourcesInFirstOrderUnique(
    xs: seq<GroundingSource>, r1: seq<GroundingSource>, r2: seq<GroundingSource>)
    requires LastSourcesInFirstOrder(xs, r1) && LastSourcesInFirstOrder(xs, r2)
    requires Uris(r1) == Uris(r2)
    ensures r1 == r2
    decreases |r1|
  {
    if |r1| == 0 {
      UrisEmpty(r1);
      UrisEmpty(r2);
    } else {
      LastSourcesInFirstOrderHead(xs, r1, r2);
      LastSourcesInFirstOrderTail(xs, r1);
      LastSourcesInFirstOrderTail(xs, r2);
      LastSourcesInFirstOrderUnique(xs, r1[1..], r2[1..]);
      assert r1 == [r1[0]] + r1[1..] && r2 == [r2[0]] + r2[1..];
    }
  }

  /** The description pins down the deduplicated list completely: any list
      meeting it is the output of `DedupByUri`. */
  lemma DedupSpecUnique(xs: seq<GroundingSource>, r: seq<GroundingSource>)
    requires DedupSpec(xs, r)
    ensures r == DedupByUri(xs)
  {
    DedupMeetsSpec(xs);
    LastSourcesInFirstOrderUnique(xs, r, DedupByUri(xs));
  }

  /** The sources a response cites: usable chunks projected and deduplicated by uri. */
  function ExtractSources(chunks: Option<seq<Chunk>>): (r: seq<GroundingSource>)
    ensures DedupSpec(UsableSources(if chunks.Some? then chunks.value else []), r)
    ensures forall k :: 0 <= k < |r| ==> |r[k].uri| > 0 && |r[k].title| > 0
  {
    var usable := UsableSources(if chunks.Some? then chunks.value else []);
    DedupMeetsSpec(usable);
    DedupByUri(usable)
  }

  /** `fetchDailyBriefing`, with the API key, the upstream outcome and the
      current instant as parameters. */
  function FetchDailyBriefing(apiKey: Option<string>, upstream: Upstream, now: string): (t: FetchTrace)
    ensures !Truthy(apiKey) ==> t == FetchTrace(Failure(MissingKeyMessage), 0)
    ensures Truthy(apiKey) ==> t.upstreamRequests == 1
    ensures Truthy(apiKey) && upstream.UpstreamFailed? ==> t.result == Failure(GenerationFailedMessage)
    ensures t.result.Failure? ==> t.result.error == MissingKeyMessage || t.result.error == GenerationFailedMessage
    ensures t.result.Success? <==> Truthy(apiKey) && upstream.Responded?
    ensures t.result.Success? ==>
      && t.result.value.timestamp == now
      && |t.result.value.summary| > 0
      && DistinctUris(t.result.value.sources)
    ensures t.result.Success? ==>
      && t.result.value.summary == Summary(upstream.response.text)
      && DedupSpec(UsableSources(if upstream.response.groundingChunks.Some? then upstream.response.groundingChunks.value else []),
                   t.result.value.sources)
      && (forall k :: 0 <= k < |t.result.value.sources| ==>
            |t.result.value.sources[k].uri| > 0 && |t.result.value.sources[k].title| > 0)
  {
    if !Truthy(apiKey) then FetchTrace(Failure(MissingKeyMessage), 0)
    else match upstream
      case UpstreamFailed => FetchTrace(Failure(GenerationFailedMessage), 1)
      case Responded(resp) =>
        var sources := ExtractSources(resp.groundingChunks);
        FetchTrace(Success(BriefingData(now, Summary(resp.text), sources)), 1)
  }
}
