/** The semantic tool cache: a table from normalised utterances to the tool call
    they triggered, a list of the utterances that may be matched fuzzily, and the
    embedding matrix built over that list. Embeddings are abstracted: a matrix is
    the list of texts its rows encode, and a similarity function scores two texts. */
module SemanticCache {
  import opened Common
  import opened Text

  const DefaultThreshold: real := 0.92

  /** One cached tool call. `exactOnly` is `None` when a stored entry carries no flag. */
  datatype CacheEntry = CacheEntry(tool: string, args: Args, exactOnly: Option<bool>)

  /** The answer of a lookup: tool, arguments and confidence. */
  datatype Lookup = Lookup(tool: Option<string>, args: Option<Args>, score: real)

  /** What reading the stored table gives: the decoded table, or a storage client error. */
  datatype StoreRead<T> = Found(doc: T) | ClientError

  /** `not data.get("exact_only", False)`: an entry without a flag may be matched fuzzily. */
  predicate IsFuzzy(e: CacheEntry) {
    e.exactOnly != Some(true)
  }

  /** The keys, in table order, whose entries may be matched fuzzily. */
  function FuzzyKeysOf(keys: seq<string>, values: map<string, CacheEntry>): seq<string>
    decreases |keys|
  {
    if keys == [] then []
    else
      var n := |keys| - 1;
      FuzzyKeysOf(keys[..n], values) + (if keys[n] in values && IsFuzzy(values[keys[n]]) then [keys[n]] else [])
  }

  function FuzzyKeys(d: Dict<CacheEntry>): seq<string> {
    FuzzyKeysOf(d.keys, d.values)
  }

  /** The fuzzy list holds exactly the keys with fuzzy entries, in table order, each once. */
  lemma {:induction false} FuzzyKeysMembers(keys: seq<string>, values: map<string, CacheEntry>)
    requires forall i, j :: 0 <= i < j < |keys| ==> keys[i] != keys[j]
    ensures forall k :: k in FuzzyKeysOf(keys, values) <==> k in keys && k in values && IsFuzzy(values[k])
    ensures forall i, j :: 0 <= i < j < |FuzzyKeysOf(keys, values)| ==>
              FuzzyKeysOf(keys, values)[i] != FuzzyKeysOf(keys, values)[j]
    decreases |keys|
  {
    if keys != [] {
      var n := |keys| - 1;
      FuzzyKeysMembers(keys[..n], values);
      assert keys == keys[..n] + [keys[n]];
      assert keys[n] !in keys[..n];
    }
  }

  /** The fuzzy list depends only on the entries of the listed keys. */
  lemma {:induction false} FuzzyKeysFrame(keys: seq<string>, values: map<string, CacheEntry>,
                                          values': map<string, CacheEntry>)
    requires forall k :: k in keys ==> (k in values <==> k in values') &&
                                        (k in values ==> values[k] == values'[k])
    ensures FuzzyKeysOf(keys, values) == FuzzyKeysOf(keys, values')
    decreases |keys|
  {
    if keys != [] {
      FuzzyKeysFrame(keys[..|keys| - 1], values, values');
    }
  }

  /** Adding a new key appends it to the fuzzy list when its entry is fuzzy, and leaves
      the list alone otherwise. */
  lemma FuzzyKeysPut(d: Dict<CacheEntry>, key: string, e: CacheEntry)
    requires d.Valid() && key !in d.values
    ensures FuzzyKeys(d.Put(key, e)) == FuzzyKeys(d) + (if IsFuzzy(e) then [key] else [])
  {
    var d' := d.Put(key, e);
    assert d'.keys[..|d.keys|] == d.keys;
    FuzzyKeysFrame(d.keys, d.values, d'.values);
  }

  /** The flag an entry ought to carry under the current registry of exact-only tools. */
  function Healed(e: CacheEntry, exactTools: set<string>): (h: CacheEntry)
    ensures h.tool == e.tool && h.args == e.args
    ensures h.exactOnly == Some(e.tool in exactTools)
  {
    e.(exactOnly := Some(e.tool in exactTools))
  }

  /** The table after self-healing: same keys in the same order, every flag corrected. */
  function Heal(d: Dict<CacheEntry>, exactTools: set<string>): Dict<CacheEntry> {
    Dict(d.keys, map k | k in d.values :: Healed(d.values[k], exactTools))
  }

  /** Some entry's flag disagrees with the registry. */
  predicate NeedsHeal(d: Dict<CacheEntry>, exactTools: set<string>) {
    exists k :: k in d.values && Stale(d.values[k], exactTools)
  }

  /** The entry's flag disagrees with the registry. */
  predicate Stale(e: CacheEntry, exactTools: set<string>) {
    e.exactOnly != Some(e.tool in exactTools)
  }

  /** Every flag agrees with the registry. */
  ghost predicate AllHealed(d: Dict<CacheEntry>, exactTools: set<string>) {
    forall k :: k in d.values ==> d.values[k].exactOnly == Some(d.values[k].tool in exactTools)
  }

  /** Healing keeps the table well formed and corrects every flag; it is the identity
      exactly when no flag needed correcting. */
  lemma HealSpec(d: Dict<CacheEntry>, exactTools: set<string>)
    requires d.Valid()
    ensures Heal(d, exactTools).Valid() && AllHealed(Heal(d, exactTools), exactTools)
    ensures Heal(d, exactTools) == d <==> !NeedsHeal(d, exactTools)
  {
    var h := Heal(d, exactTools);
    if !NeedsHeal(d, exactTools) {
      assert forall k :: k in d.values ==> Healed(d.values[k], exactTools) == d.values[k];
      assert h.values == d.values;
    } else {
      var k :| k in d.values && Stale(d.values[k], exactTools);
      assert h.values[k] != d.values[k];
    }
  }

  class S3SemanticCache {
    const exactTools: set<string>
    var cacheDict: Dict<CacheEntry>
    var utteranceTexts: seq<string>
    var utteranceMatrix: Option<seq<string>>
    /** Every table written to storage, oldest first. */
    ghost var writes: seq<Dict<CacheEntry>>
    /** How many times the matrix has been rebuilt. */
    ghost var rebuilds: nat

    /** The fuzzy list is the fuzzy keys in table order, the matrix is built over it,
        and every flag agrees with the registry. */
    ghost predicate Valid()
      reads this
    {
      && cacheDict.Valid()
      && utteranceTexts == FuzzyKeys(cacheDict)
      && utteranceMatrix == MatrixOf(utteranceTexts)
      && AllHealed(cacheDict, exactTools)
    }

    /** `__init__` followed by `_load_from_s3`: a client error starts an empty table and
        writes it; a loaded table is healed and written back only if a flag changed. */
    constructor(exactTools: set<string>, stored: StoreRead<Dict<CacheEntry>>)
      requires stored.Found? ==> stored.doc.Valid()
      ensures Valid()
      ensures this.exactTools == exactTools
      ensures stored.ClientError? ==> cacheDict == EmptyDict() && writes == [EmptyDict()]
      ensures stored.Found? ==> cacheDict == Heal(stored.doc, exactTools)
      ensures stored.Found? ==> writes == if NeedsHeal(stored.doc, exactTools) then [cacheDict] else []
      ensures rebuilds == 1
    {
      this.exactTools := exactTools;
      cacheDict := EmptyDict();
      utteranceTexts := [];
      utteranceMatrix := None;
      writes := [];
      rebuilds := 0;
      new;
      match stored {
        case ClientError =>
          SyncToS3();
        case Found(doc) =>
          cacheDict := doc;
          var changed := SelfHeal();
          HealSpec(doc, exactTools);
          if changed {
            SyncToS3();
          }
      }
      RebuildMatrix();
    }

    /** The self-healing loop of `_load_from_s3`: it corrects every stale flag in place
        and reports whether any was corrected. */
    method SelfHeal() returns (changed: bool)
      requires cacheDict.Valid()
      modifies this
      ensures cacheDict == Heal(old(cacheDict), exactTools)
      ensures changed <==> NeedsHeal(old(cacheDict), exactTools)
      ensures utteranceTexts == old(utteranceTexts) && utteranceMatrix == old(utteranceMatrix)
      ensures writes == old(writes) && rebuilds == old(rebuilds)
    {
      ghost var d := cacheDict;
      var keys := cacheDict.keys;
      var values := cacheDict.values;
      changed := false;
      for i := 0 to |keys|
        invariant values.Keys == d.values.Keys
        invariant forall j :: 0 <= j < i ==> values[keys[j]] == Healed(d.values[keys[j]], exactTools)
        invariant forall j :: i <= j < |keys| ==> values[keys[j]] == d.values[keys[j]]
        invariant changed <==> exists j :: 0 <= j < i && Stale(d.values[keys[j]], exactTools)
      {
        var text := keys[i];
        var data := values[text];
        var shouldBeExact := data.tool in exactTools;
        assert data == d.values[text];
        if data.exactOnly != Some(shouldBeExact) {
          assert forall j :: 0 <= j < |keys| && j != i ==> keys[j] != text;
          values := values[text := data.(exactOnly := Some(shouldBeExact))];
          changed := true;
        }
      }
      cacheDict := Dict(keys, values);
      HealedByKeys(d, cacheDict);
    }

    lemma HealedByKeys(d: Dict<CacheEntry>, c: Dict<CacheEntry>)
      requires d.Valid() && c.keys == d.keys && c.values.Keys == d.values.Keys
      requires forall j :: 0 <= j < |d.keys| ==> c.values[d.keys[j]] == Healed(d.values[d.keys[j]], exactTools)
      ensures c == Heal(d, exactTools)
      ensures (exists j :: 0 <= j < |d.keys| && Stale(d.values[d.keys[j]], exactTools)) <==> NeedsHeal(d, exactTools)
    {
      forall k | k in d.values
        ensures c.values[k] == Healed(d.values[k], exactTools)
      {
        var j :| 0 <= j < |d.keys| && d.keys[j] == k;
      }
      if NeedsHeal(d, exactTools) {
        var k :| k in d.values && Stale(d.values[k], exactTools);
        var j :| 0 <= j < |d.keys| && d.keys[j] == k;
        assert Stale(d.values[d.keys[j]], exactTools);
      }
    }

    /** `_sync_to_s3`: the current table is written to storage. */
    method SyncToS3()
      modifies this
      ensures writes == old(writes) + [cacheDict]
      ensures cacheDict == old(cacheDict) && utteranceTexts == old(utteranceTexts)
      ensures utteranceMatrix == old(utteranceMatrix) && rebuilds == old(rebuilds)
    {
      writes := writes + [cacheDict];
    }

    /** `_rebuild_matrix`: only the fuzzy keys are listed and encoded. */
    method RebuildMatrix()
      modifies this
      ensures utteranceTexts == FuzzyKeys(cacheDict)
      ensures utteranceMatrix == MatrixOf(utteranceTexts)
      ensures cacheDict == old(cacheDict) && writes == old(writes) && rebuilds == old(rebuilds) + 1
    {
      utteranceTexts := FuzzyKeys(cacheDict);
      if utteranceTexts == [] {
        utteranceMatrix := None;
      } else {
        utteranceMatrix := Some(utteranceTexts);
      }
      rebuilds := rebuilds + 1;
    }

    /** `add_to_cache`: a new key is stored with the registry's flag, the matrix is
        rebuilt only for a fuzzy entry, and the table is written; a known key changes nothing. */
    method AddToCache(utterance: string, toolName: string, toolArgs: Args)
      requires Valid()
      modifies this
      ensures Valid()
      ensures Normalize(utterance) in old(cacheDict.values) ==>
                cacheDict == old(cacheDict) && writes == old(writes) && rebuilds == old(rebuilds)
                && utteranceTexts == old(utteranceTexts) && utteranceMatrix == old(utteranceMatrix)
      ensures Normalize(utterance) !in old(cacheDict.values) ==>
                && cacheDict == old(cacheDict).Put(Normalize(utterance),
                                                   CacheEntry(toolName, toolArgs, Some(toolName in exactTools)))
                && writes == old(writes) + [cacheDict]
                && rebuilds == old(rebuilds) + (if toolName in exactTools then 0 else 1)
                && utteranceTexts == old(utteranceTexts) + (if toolName in exactTools then [] else [Normalize(utterance)])
    {
      var key := Normalize(utterance);
      var exactOnly := toolName in exactTools;
      if key !in cacheDict.values {
        var e := CacheEntry(toolName, toolArgs, Some(exactOnly));
        FuzzyKeysPut(cacheDict, key, e);
        ghost var fuzzy := utteranceTexts;
        cacheDict := cacheDict.Put(key, e);
        assert AllHealed(cacheDict, exactTools);
        if !exactOnly {
          RebuildMatrix();
        } else {
          assert FuzzyKeys(cacheDict) == fuzzy;
        }
        SyncToS3();
      }
    }

    /** `get_cached_tool` against the similarity `sim(query, text)` of the encoded texts. */
    function GetCachedTool(query: string, threshold: real, sim: (string, string) -> real): (r: Lookup)
      reads this
      requires Valid()
      ensures Normalize(query) in cacheDict.values ==>
                r == Lookup(Some(cacheDict.values[Normalize(query)].tool),
                            Some(cacheDict.values[Normalize(query)].args), 1.0)
      ensures Normalize(query) !in cacheDict.values && utteranceTexts == [] ==> r == Lookup(None, None, 0.0)
      ensures Normalize(query) !in cacheDict.values && utteranceTexts != [] ==>
                r == FuzzyTier(Normalize(query), threshold, sim)
    {
      var q := Normalize(query);
      if q in cacheDict.values then
        var cached := cacheDict.values[q];
        Lookup(Some(cached.tool), Some(cached.args), 1.0)
      else if utteranceMatrix.None? then
        Lookup(None, None, 0.0)
      else
        FuzzyTier(q, threshold, sim)
    }

    /** The semantic tier: the first row of highest score is taken if it reaches the
        threshold and its entry is not exact-only; the best score is reported either way. */
    function FuzzyTier(q: string, threshold: real, sim: (string, string) -> real): (r: Lookup)
      reads this
      requires Valid() && utteranceMatrix.Some?
      ensures r.tool.Some? <==> r.args.Some?
      ensures exists k :: && FirstMaximum(Scores(utteranceTexts, t => sim(q, t)), k)
                          && r.score == sim(q, utteranceTexts[k])
                          && utteranceTexts[k] in cacheDict.values
                          && (r.tool.Some? ==>
                                && r.score >= threshold
                                && IsFuzzy(cacheDict.values[utteranceTexts[k]])
                                && r.tool.value == cacheDict.values[utteranceTexts[k]].tool
                                && r.args.value == cacheDict.values[utteranceTexts[k]].args)
    {
      var similarities := Scores(utteranceMatrix.value, t => sim(q, t));
      var bestIdx := ArgMax(similarities);
      var bestScore := similarities[bestIdx];
      var matched := utteranceTexts[bestIdx];
      assert matched in cacheDict.values by {
        FuzzyKeysMembers(cacheDict.keys, cacheDict.values);
      }
      if bestScore >= threshold then
        var cached := cacheDict.values[matched];
        if IsFuzzy(cached) then Lookup(Some(cached.tool), Some(cached.args), bestScore)
        else Lookup(None, None, bestScore)
      else Lookup(None, None, bestScore)
    }

    /** The exact-only guard of the fuzzy tier never fires: every listed text is fuzzy,
        so a best score at or above the threshold always yields its entry. */
    lemma ExactOnlyGuardRedundant(query: string, threshold: real, sim: (string, string) -> real)
      requires Valid()
      requires utteranceMatrix.Some?
      ensures FuzzyTier(query, threshold, sim).tool.Some? <==> FuzzyTier(query, threshold, sim).score >= threshold
    {
      FuzzyKeysMembers(cacheDict.keys, cacheDict.values);
    }
  }
}
