/** The semantic router: a table from route names to example phrases, the list of
    routes, and an embedding matrix with one row per phrase and, parallel to it, the
    route each row belongs to. A matrix is modelled as the list of phrases its rows
    encode; similarity of a query to a row is an abstract function. */
module SemanticRouter {
  import opened Common
  import opened Text

  /** The cosine-similarity threshold of `get_route`. */
  const Threshold: real := 0.55

  /** The routes a fresh router starts with, in this order. */
  function DefaultRoutes(): (d: Dict<seq<string>>)
    ensures d.Valid() && d.keys == ["media", "timers", "home_control"]
  {
    Dict(["media", "timers", "home_control"], map[
      "media" := ["spiele musik im wohnzimmer", "mach das radio an", "nächstes lied bitte",
                  "musik stoppen", "setze die lautstärke auf 50 prozent", "was läuft gerade",
                  "leere die warteschlange", "musik fortsetzen"],
      "timers" := ["stell einen timer auf 5 minuten", "wecke mich in 10 minuten",
                   "wie viel zeit ist noch auf dem timer", "timer abbrechen", "stoppe den alarm"],
      "home_control" := ["mach das licht in der küche an", "licht aus", "stell die heizung auf 22 grad",
                         "aktiviere die szene schlafen", "mir ist kalt", "Deckenleuchte Büro aus",
                         "Schreibtischlampe aus", "Tischlampe aus", "Lichtekette aus", "Lichterkette an",
                         "Thermostat auf 20 Grad", "dimme das licht"]])
  }

  /** What reading the stored routes gives. */
  datatype RoutesRead = Found(doc: Dict<seq<string>>) | NoSuchKey | OtherClientError | Corrupt

  /** Every phrase of the listed routes, route by route in list order. */
  function Phrases(keys: seq<string>, values: map<string, seq<string>>): seq<string>
    decreases |keys|
  {
    if keys == [] then []
    else
      var n := |keys| - 1;
      Phrases(keys[..n], values) + (if keys[n] in values then values[keys[n]] else [])
  }

  /** The route of every phrase of `Phrases(keys, values)`: each route once per phrase. */
  function Labels(keys: seq<string>, values: map<string, seq<string>>): seq<string>
    decreases |keys|
  {
    if keys == [] then []
    else
      var n := |keys| - 1;
      Labels(keys[..n], values) + (if keys[n] in values then seq(|values[keys[n]]|, _ => keys[n]) else [])
  }

  /** The listed routes that have at least one phrase, in list order. */
  function NonEmptyRoutes(keys: seq<string>, values: map<string, seq<string>>): seq<string>
    decreases |keys|
  {
    if keys == [] then []
    else
      var n := |keys| - 1;
      NonEmptyRoutes(keys[..n], values) + (if keys[n] in values && values[keys[n]] != [] then [keys[n]] else [])
  }

  /** The (route, phrase) pairs the labelled rows stand for. */
  ghost function Pairs(rows: seq<string>, labels: seq<string>): set<(string, string)>
    requires |rows| == |labels|
  {
    set k | 0 <= k < |rows| :: (labels[k], rows[k])
  }

  /** The (route, phrase) pairs of a table. */
  ghost function TablePairs(values: map<string, seq<string>>): set<(string, string)> {
    set r, p | r in values && p in values[r] :: (r, p)
  }

  /** The (route, phrase) pairs of the listed routes. */
  ghost function KeyPairs(keys: seq<string>, values: map<string, seq<string>>): set<(string, string)> {
    set r, p | r in keys && r in values && p in values[r] :: (r, p)
  }

  /** Rows and labels are parallel, and each labelled row is a phrase of its route and
      each phrase of each route is a labelled row. */
  ghost predicate Layout(rows: seq<string>, labels: seq<string>, values: map<string, seq<string>>) {
    |rows| == |labels| && Pairs(rows, labels) == TablePairs(values)
  }

  lemma PairsConcat(rows: seq<string>, labels: seq<string>, rows': seq<string>, labels': seq<string>)
    requires |rows| == |labels| && |rows'| == |labels'|
    ensures Pairs(rows + rows', labels + labels') == Pairs(rows, labels) + Pairs(rows', labels')
  {
    var all := Pairs(rows + rows', labels + labels');
    forall x | x in Pairs(rows', labels')
      ensures x in all
    {
      var k :| 0 <= k < |rows'| && x == (labels'[k], rows'[k]);
      assert x == ((labels + labels')[|rows| + k], (rows + rows')[|rows| + k]);
    }
    forall x | x in Pairs(rows, labels)
      ensures x in all
    {
      var k :| 0 <= k < |rows| && x == (labels[k], rows[k]);
      assert x == ((labels + labels')[k], (rows + rows')[k]);
    }
  }

  /** A route's phrases, each labelled with the route, stand for that route's pairs. */
  lemma PairsOfRoute(ps: seq<string>, r: string)
    ensures Pairs(ps, seq(|ps|, _ => r)) == set p | p in ps :: (r, p)
  {
    var labels := seq(|ps|, _ => r);
    forall x | x in (set p | p in ps :: (r, p))
      ensures x in Pairs(ps, labels)
    {
      var p :| p in ps && x == (r, p);
      var k :| 0 <= k < |ps| && ps[k] == p;
      assert x == (labels[k], ps[k]);
    }
  }

  /** Laying the routes out row by row gives exactly the pairs of the listed routes. */
  lemma {:induction false} LayoutSpec(keys: seq<string>, values: map<string, seq<string>>)
    ensures |Phrases(keys, values)| == |Labels(keys, values)|
    ensures Pairs(Phrases(keys, values), Labels(keys, values)) == KeyPairs(keys, values)
    decreases |keys|
  {
    if keys != [] {
      var n := |keys| - 1;
      var last := keys[n];
      LayoutSpec(keys[..n], values);
      assert keys == keys[..n] + [last];
      var rows0, labels0 := Phrases(keys[..n], values), Labels(keys[..n], values);
      var ps := if last in values then values[last] else [];
      var ls := if last in values then seq(|values[last]|, _ => last) else [];
      assert |ls| == |ps|;
      PairsConcat(rows0, labels0, ps, ls);
      if last in values {
        PairsOfRoute(ps, last);
      }
      var now := KeyPairs(keys, values);
      var tail := set p | p in ps :: (last, p);
      assert Pairs(ps, ls) == tail;
      forall x | x in now
        ensures x in KeyPairs(keys[..n], values) + tail
      {
        var r, p :| r in keys && r in values && p in values[r] && x == (r, p);
        if r != last {
          assert r in keys[..n];
        }
      }
    }
  }

  /** The non-empty routes of a list without repetitions are listed once each. */
  lemma {:induction false} NonEmptyRoutesSpec(keys: seq<string>, values: map<string, seq<string>>)
    ensures forall r :: r in NonEmptyRoutes(keys, values) <==> r in keys && r in values && values[r] != []
    decreases |keys|
  {
    if keys != [] {
      var n := |keys| - 1;
      NonEmptyRoutesSpec(keys[..n], values);
      assert keys == keys[..n] + [keys[n]];
    }
  }

  /** The first route, in table order, whose phrases contain `u`. */
  function Owner(keys: seq<string>, values: map<string, seq<string>>, u: string): (o: Option<nat>)
    ensures o.Some? ==> o.value < |keys| && keys[o.value] in values && u in values[keys[o.value]]
    ensures o.Some? ==> forall j :: 0 <= j < o.value && keys[j] in values ==> u !in values[keys[j]]
    ensures o.None? ==> forall j :: 0 <= j < |keys| && keys[j] in values ==> u !in values[keys[j]]
    decreases |keys|
  {
    if keys == [] then None
    else if keys[0] in values && u in values[keys[0]] then Some(0)
    else match Owner(keys[1..], values, u)
      case None => None
      case Some(j) => Some(j + 1)
  }

  function KnownMessage(u: string, r: string): string {
    "Ich weiß bereits, dass '" + u + "' zu '" + r + "' gehört."
  }

  function ConflictMessage(u: string, owner: string): string {
    "Konflikt: '" + u + "' löst bereits die Kategorie '" + owner + "' aus."
  }

  function LearnedMessage(u: string, r: string): string {
    "Okay, ich habe gelernt, dass '" + u + "' die Kategorie '" + r + "' auslöst."
  }

  /** The phrases the rows of a matrix encode; no matrix has no rows. */
  function RowsOf(m: Option<seq<string>>): seq<string> {
    if m.None? then [] else m.value
  }

  /** Rows and labels are parallel, each label owns its row, every phrase has a row,
      a matrix is never empty, and `routes` lists table routes without repetition. */
  ghost predicate IndexInvariant(d: Dict<seq<string>>, routes: seq<string>, labels: seq<string>,
                                 matrix: Option<seq<string>>)
  {
    && d.Valid()
    && matrix != Some([])
    && Layout(RowsOf(matrix), labels, d.values)
    && (forall i, j :: 0 <= i < j < |routes| ==> routes[i] != routes[j])
    && (forall r :: r in routes ==> r in d.values)
  }

  /** Learning a phrase no route has keeps the invariant. */
  lemma LearnKeepsInvariant(d: Dict<seq<string>>, routes: seq<string>, labels: seq<string>,
                            matrix: Option<seq<string>>, route: string, u: string)
    requires IndexInvariant(d, routes, labels, matrix)
    ensures var phrases := (if route in d.values then d.values[route] else []) + [u];
            IndexInvariant(d.Put(route, phrases), routes + (if route in d.values then [] else [route]),
                           labels + [route], Some(RowsOf(matrix) + [u]))
  {
    LearnKeepsLayout(RowsOf(matrix), labels, d.values, route, u);
  }

  class S3SemanticRouter {
    var routeDict: Dict<seq<string>>
    var routes: seq<string>
    var utteranceRoutes: seq<string>
    var utteranceMatrix: Option<seq<string>>
    /** Every table written to storage, oldest first. */
    ghost var writes: seq<Dict<seq<string>>>

    /** Rows and labels are parallel, each label owns its row, every phrase has a row,
        a matrix is never empty, and `routes` lists table routes without repetition. */
    ghost predicate Valid()
      reads this
    {
      IndexInvariant(routeDict, routes, utteranceRoutes, utteranceMatrix)
    }

    /** `__init__` and `_load_from_s3`: the stored table replaces the defaults when it
        can be read; a missing object keeps the defaults and writes them; any other
        error keeps the defaults. Then the index is built over the table. */
    constructor(stored: RoutesRead)
      requires stored.Found? ==> stored.doc.Valid()
      ensures Valid()
      ensures routeDict == if stored.Found? then stored.doc else DefaultRoutes()
      ensures writes == if stored.NoSuchKey? then [DefaultRoutes()] else []
      ensures routes == NonEmptyRoutes(routeDict.keys, routeDict.values)
      ensures RowsOf(utteranceMatrix) == Phrases(routeDict.keys, routeDict.values)
      ensures utteranceRoutes == Labels(routeDict.keys, routeDict.values)
    {
      routeDict := DefaultRoutes();
      routes := [];
      utteranceRoutes := [];
      utteranceMatrix := None;
      writes := [];
      new;
      match stored {
        case Found(doc) => routeDict := doc;
        case NoSuchKey => writes := writes + [routeDict];
        case OtherClientError =>
        case Corrupt =>
      }
      BuildIndex();
    }

    /** The loop of `_load_from_s3` that fills `routes`, the labels and the matrix. */
    method BuildIndex()
      requires routeDict.Valid() && routes == [] && utteranceRoutes == [] && utteranceMatrix == None
      modifies this
      ensures Valid()
      ensures routeDict == old(routeDict) && writes == old(writes)
      ensures routes == NonEmptyRoutes(routeDict.keys, routeDict.values)
      ensures RowsOf(utteranceMatrix) == Phrases(routeDict.keys, routeDict.values)
      ensures utteranceRoutes == Labels(routeDict.keys, routeDict.values)
    {
      var keys := routeDict.keys;
      var values := routeDict.values;
      var names: seq<string> := [];
      var allRows: seq<string> := [];
      var labels: seq<string> := [];
      for i := 0 to |keys|
        invariant unchanged(this)
        invariant names == NonEmptyRoutes(keys[..i], values)
        invariant allRows == Phrases(keys[..i], values)
        invariant labels == Labels(keys[..i], values)
      {
        var routeName := keys[i];
        var utterances := values[routeName];
        IndexStep(keys, values, i);
        if utterances != [] {
          if routeName !in names {
            names := names + [routeName];
          }
          allRows := allRows + utterances;
          labels := labels + seq(|utterances|, _ => routeName);
        }
      }
      assert keys[..|keys|] == keys;
      routes := names;
      utteranceRoutes := labels;
      if allRows != [] {
        utteranceMatrix := Some(allRows);
      }
      IndexLayout(routeDict);
    }

    /** `learn_new_phrase`: a phrase some route already has changes nothing and is
        answered with "already known" or "conflict"; otherwise it is appended to its
        route (created if need be), gets one new row and label, and the table is written. */
    method LearnNewPhrase(routeName: string, utterance: string) returns (msg: string)
      requires Valid()
      modifies this
      ensures Valid()
      ensures var r, u := Normalize(routeName), Normalize(utterance);
              var o := Owner(old(routeDict.keys), old(routeDict.values), u);
              o.Some? ==>
                && routeDict == old(routeDict) && routes == old(routes) && writes == old(writes)
                && utteranceRoutes == old(utteranceRoutes) && utteranceMatrix == old(utteranceMatrix)
                && msg == (if old(routeDict.keys)[o.value] == r then KnownMessage(u, r)
                           else ConflictMessage(u, old(routeDict.keys)[o.value]))
      ensures var r, u := Normalize(routeName), Normalize(utterance);
              Owner(old(routeDict.keys), old(routeDict.values), u).None? ==>
                && routeDict == old(routeDict).Put(r, (if r in old(routeDict.values) then old(routeDict.values)[r] else []) + [u])
                && routes == old(routes) + (if r in old(routeDict.values) then [] else [r])
                && RowsOf(utteranceMatrix) == RowsOf(old(utteranceMatrix)) + [u]
                && utteranceRoutes == old(utteranceRoutes) + [r]
                && writes == old(writes) + [routeDict]
                && msg == LearnedMessage(u, r)
    {
      var route := Normalize(routeName);
      var u := Normalize(utterance);
      var owner := FindOwner(u);
      OwnerNoneAll(routeDict, u);
      if owner.Some? {
        var existingRoute := routeDict.keys[owner.value];
        if existingRoute == route {
          return KnownMessage(u, route);
        } else {
          return ConflictMessage(u, existingRoute);
        }
      }
      AppendPhrase(route, u);
      msg := LearnedMessage(u, route);
    }

    /** The learning half of `learn_new_phrase`, for a phrase no route has yet. */
    method AppendPhrase(route: string, u: string)
      requires Valid()
      requires forall r :: r in routeDict.values ==> u !in routeDict.values[r]
      modifies this
      ensures Valid()
      ensures routeDict == old(routeDict).Put(route, (if route in old(routeDict.values) then old(routeDict.values)[route] else []) + [u])
      ensures routes == old(routes) + (if route in old(routeDict.values) then [] else [route])
      ensures RowsOf(utteranceMatrix) == RowsOf(old(utteranceMatrix)) + [u]
      ensures utteranceRoutes == old(utteranceRoutes) + [route]
      ensures writes == old(writes) + [routeDict]
    {
      LearnKeepsInvariant(routeDict, routes, utteranceRoutes, utteranceMatrix, route, u);
      ghost var phrases := (if route in routeDict.values then routeDict.values[route] else []) + [u];
      ghost var learned := routeDict.Put(route, phrases);
      var table := routeDict;
      if route !in table.values {
        table := table.Put(route, []);
        routes := routes + [route];
      }
      table := table.Put(route, table.values[route] + [u]);
      assert table.values == learned.values;
      routeDict := table;
      if utteranceMatrix.None? {
        utteranceMatrix := Some([u]);
      } else {
        utteranceMatrix := Some(utteranceMatrix.value + [u]);
      }
      utteranceRoutes := utteranceRoutes + [route];
      writes := writes + [routeDict];
    }

    /** The conflict scan of `learn_new_phrase`: the position of the first route, in
        table order, whose phrases contain `u`. */
    method FindOwner(u: string) returns (owner: Option<nat>)
      requires routeDict.Valid()
      ensures owner == Owner(routeDict.keys, routeDict.values, u)
    {
      var keys := routeDict.keys;
      var i := 0;
      while i < |keys|
        invariant 0 <= i <= |keys|
        invariant forall j :: 0 <= j < i ==> u !in routeDict.values[keys[j]]
      {
        if u in routeDict.values[keys[i]] {
          OwnerIsFirst(keys, routeDict.values, u, i);
          return Some(i);
        }
        i := i + 1;
      }
      OwnerNone(keys, routeDict.values, u);
      return None;
    }

    /** `get_route`: the route of the first row of highest similarity to the lower-cased
        query, if that similarity reaches the threshold. */
    function GetRoute(query: string, sim: (string, string) -> real): (r: Option<string>)
      reads this
      requires Valid()
      ensures utteranceMatrix.None? ==> r.None?
      ensures utteranceMatrix.Some? ==>
                var scores := Scores(utteranceMatrix.value, t => sim(ToLower(query), t));
                exists k :: && FirstMaximum(scores, k)
                            && (r.Some? <==> scores[k] >= Threshold)
                            && (r.Some? ==> r.value == utteranceRoutes[k] && r.value in routeDict.values
                                            && utteranceMatrix.value[k] in routeDict.values[r.value])
    {
      if utteranceMatrix.None? then None
      else
        var similarities := Scores(utteranceMatrix.value, t => sim(ToLower(query), t));
        var bestMatchIdx := ArgMax(similarities);
        LayoutRow(utteranceMatrix.value, utteranceRoutes, routeDict.values, bestMatchIdx);
        if similarities[bestMatchIdx] >= Threshold then Some(utteranceRoutes[bestMatchIdx]) else None
    }
  }

  /** One more route of the table extends the index by its phrases and labels, and
      lists it unless its phrases are empty; a route without repetition is new there. */
  lemma IndexStep(keys: seq<string>, values: map<string, seq<string>>, i: nat)
    requires i < |keys| && keys[i] in values
    requires forall a, b :: 0 <= a < b < |keys| ==> keys[a] != keys[b]
    ensures var u := values[keys[i]];
            && Phrases(keys[..i + 1], values) == Phrases(keys[..i], values) + u
            && Labels(keys[..i + 1], values) == Labels(keys[..i], values) + seq(|u|, _ => keys[i])
            && NonEmptyRoutes(keys[..i + 1], values)
               == NonEmptyRoutes(keys[..i], values) + (if u != [] then [keys[i]] else [])
            && keys[i] !in NonEmptyRoutes(keys[..i], values)
  {
    assert keys[..i + 1][..i] == keys[..i];
    NonEmptyRoutesSpec(keys[..i], values);
  }

  /** The index built over a well-formed table satisfies the router's invariant. */
  lemma IndexLayout(d: Dict<seq<string>>)
    requires d.Valid()
    ensures Layout(Phrases(d.keys, d.values), Labels(d.keys, d.values), d.values)
    ensures forall i, j :: 0 <= i < j < |NonEmptyRoutes(d.keys, d.values)| ==>
              NonEmptyRoutes(d.keys, d.values)[i] != NonEmptyRoutes(d.keys, d.values)[j]
    ensures forall r :: r in NonEmptyRoutes(d.keys, d.values) ==> r in d.values
  {
    LayoutSpec(d.keys, d.values);
    assert KeyPairs(d.keys, d.values) == TablePairs(d.values);
    NonEmptyRoutesSpec(d.keys, d.values);
    DistinctNonEmptyRoutes(d.keys, d.values);
  }

  lemma DistinctNonEmptyRoutes(keys: seq<string>, values: map<string, seq<string>>)
    requires forall i, j :: 0 <= i < j < |keys| ==> keys[i] != keys[j]
    ensures forall i, j :: 0 <= i < j < |NonEmptyRoutes(keys, values)| ==>
              NonEmptyRoutes(keys, values)[i] != NonEmptyRoutes(keys, values)[j]
    decreases |keys|
  {
    if keys != [] {
      var n := |keys| - 1;
      DistinctNonEmptyRoutes(keys[..n], values);
      NonEmptyRoutesSpec(keys[..n], values);
      assert keys[n] !in keys[..n];
    }
  }

  lemma OwnerIsFirst(keys: seq<string>, values: map<string, seq<string>>, u: string, i: nat)
    requires i < |keys| && keys[i] in values && u in values[keys[i]]
    requires forall j :: 0 <= j < i ==> keys[j] in values && u !in values[keys[j]]
    ensures Owner(keys, values, u) == Some(i)
  {
  }

  lemma OwnerNone(keys: seq<string>, values: map<string, seq<string>>, u: string)
    requires forall j :: 0 <= j < |keys| ==> keys[j] in values && u !in values[keys[j]]
    ensures Owner(keys, values, u).None?
  {
  }

  /** No route of a well-formed table owns what `Owner` finds no owner for. */
  lemma OwnerNoneAll(d: Dict<seq<string>>, u: string)
    requires d.Valid()
    ensures Owner(d.keys, d.values, u).None? ==> forall r :: r in d.values ==> u !in d.values[r]
  {
    if Owner(d.keys, d.values, u).None? {
      forall r | r in d.values
        ensures u !in d.values[r]
      {
        var j :| 0 <= j < |d.keys| && d.keys[j] == r;
      }
    }
  }

  /** Appending the phrase to its route and one labelled row keeps the layout. */
  lemma LearnKeepsLayout(rows: seq<string>, labels: seq<string>, values: map<string, seq<string>>,
                         r: string, u: string)
    requires Layout(rows, labels, values)
    ensures Layout(rows + [u], labels + [r], values[r := (if r in values then values[r] else []) + [u]])
  {
    var values' := values[r := (if r in values then values[r] else []) + [u]];
    PairsConcat(rows, labels, [u], [r]);
    assert (r, u) == ([r][0], [u][0]);
    assert Pairs([u], [r]) == {(r, u)};
    forall x | x in TablePairs(values')
      ensures x in TablePairs(values) + {(r, u)}
    {
      var q, p :| q in values' && p in values'[q] && x == (q, p);
      if q == r && p != u {
        assert p in values[q];
      }
    }
    forall x | x in TablePairs(values)
      ensures x in TablePairs(values')
    {
      var q, p :| q in values && p in values[q] && x == (q, p);
      assert p in values'[q];
    }
  }

  /** A labelled row names a route of the table, and its phrase is one of that route's. */
  lemma LayoutRow(rows: seq<string>, labels: seq<string>, values: map<string, seq<string>>, k: nat)
    requires Layout(rows, labels, values) && k < |rows|
    ensures labels[k] in values && rows[k] in values[labels[k]]
  {
    assert (labels[k], rows[k]) in Pairs(rows, labels);
  }
}
