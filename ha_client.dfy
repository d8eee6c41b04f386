/** The Home Assistant client: the route to allowed-domain table, the parsing of the
    template responses into areas, vocabulary and device-context lines, and the lazily
    loaded area list. The HTTP requests are abstract: each response is an input, `None`
    standing for a failed request. */
module HaClient {
  import opened Common
  import opened Text

  /** One service call: domain, service and JSON payload. */
  datatype ServiceCall = ServiceCall(domain: string, service: string, payload: Args)

  /** What `call_service` does: it returns whether the request succeeded (a client error
      is logged and gives false), or another exception escapes with its message. */
  datatype CallOutcome = Returned(ok: bool) | Raised(error: string)

  /** A non-empty state object from `get_state`: its `state` and its `attributes`. */
  datatype EntityState = EntityState(state: Value, attributes: Args)

  /** `ROUTE_DOMAIN_MAP`. */
  function RouteDomains(route: string): Option<seq<string>> {
    if route == "media" then Some(["media_player"])
    else if route == "timers" then Some(["timer"])
    else if route == "home_control" then Some(["light", "climate", "switch", "scene", "cover"])
    else None
  }

  const DefaultDomains: seq<string> := ["light", "climate", "switch", "scene", "media_player", "timer"]

  /** `ROUTE_DOMAIN_MAP.get(route, default)`: an unknown route and no route both get the default. */
  function AllowedDomains(route: Option<string>): seq<string> {
    if route.Some? && RouteDomains(route.value).Some? then RouteDomains(route.value).value else DefaultDomains
  }

  /** Which routes expose which domains: timers are hidden only from the media and
      home-control routes, media players only from the timer and home-control routes,
      and covers are reachable through the home-control route alone. */
  lemma AllowedDomainsCases(route: Option<string>)
    ensures "timer" in AllowedDomains(route) <==> route != Some("media") && route != Some("home_control")
    ensures "media_player" in AllowedDomains(route) <==> route != Some("timers") && route != Some("home_control")
    ensures "cover" in AllowedDomains(route) <==> route == Some("home_control")
    ensures AllowedDomains(route) != []
  {
  }

  /** `item.strip().lower()`. */
  function Cleaned(item: string): string {
    ToLower(Strip(item))
  }

  /** `[f(x) for x in items if keep(x)]`. */
  function Comprehension(items: seq<string>, keep: string -> bool, f: string -> string): seq<string>
    decreases |items|
  {
    if items == [] then []
    else
      var rest := Comprehension(items[1..], keep, f);
      if keep(items[0]) then [f(items[0])] + rest else rest
  }

  /** A value is produced exactly when some kept item maps to it. */
  lemma {:induction false} ComprehensionMembers(items: seq<string>, keep: string -> bool, f: string -> string, a: string)
    ensures a in Comprehension(items, keep, f) <==> exists k :: 0 <= k < |items| && keep(items[k]) && a == f(items[k])
    decreases |items|
  {
    if items != [] {
      var rest := items[1..];
      ComprehensionMembers(rest, keep, f, a);
      if a in Comprehension(rest, keep, f) {
        var k :| 0 <= k < |rest| && keep(rest[k]) && a == f(rest[k]);
        assert items[k + 1] == rest[k];
      }
      if exists k :: 0 <= k < |items| && keep(items[k]) && a == f(items[k]) {
        var k :| 0 <= k < |items| && keep(items[k]) && a == f(items[k]);
        if k > 0 {
          assert rest[k - 1] == items[k];
        }
      }
    }
  }

  /** The filter of `_load_areas`: non-empty once stripped and not the literal "None",
      compared before lower-casing. */
  predicate KeepArea(item: string) {
    Strip(item) != "" && Strip(item) != "None"
  }

  /** The filter of `get_voice_vocabulary`: non-empty once stripped and not "none" once
      lower-cased. */
  predicate KeepWord(item: string) {
    Strip(item) != "" && Cleaned(item) != "none"
  }

  /** The area comprehension of `_load_areas`. */
  function AreaNames(items: seq<string>): seq<string> {
    Comprehension(items, KeepArea, Cleaned)
  }

  /** An area is listed exactly when some item cleans to it and passes the filter. */
  lemma AreaNamesMembers(items: seq<string>, a: string)
    ensures a in AreaNames(items) <==> exists k :: 0 <= k < |items| && KeepArea(items[k]) && a == Cleaned(items[k])
  {
    ComprehensionMembers(items, KeepArea, Cleaned, a);
  }

  /** The vocabulary comprehension of `get_voice_vocabulary`. */
  function VocabularyItems(items: seq<string>): seq<string> {
    Comprehension(items, KeepWord, Cleaned)
  }

  /** A word is in the vocabulary exactly when some item cleans to it and passes the filter. */
  lemma VocabularyItemsMembers(items: seq<string>, w: string)
    ensures w in VocabularyItems(items) <==> exists k :: 0 <= k < |items| && KeepWord(items[k]) && w == Cleaned(items[k])
  {
    ComprehensionMembers(items, KeepWord, Cleaned, w);
  }

  /** Neither a placeholder "none" nor an upper-case letter reaches the vocabulary. */
  lemma VocabularyItemsClean(items: seq<string>, w: string)
    requires w in VocabularyItems(items)
    ensures w != "none"
    ensures forall i :: 0 <= i < |w| ==> !IsUpperChar(w[i])
  {
    VocabularyItemsMembers(items, w);
    var k :| 0 <= k < |items| && KeepWord(items[k]) && w == Cleaned(items[k]);
    ToLowerIsLower(Strip(items[k]));
  }

  /** The two filters differ on an upper-case placeholder: the area list keeps "NONE"
      (as "none"), the vocabulary drops it. */
  lemma NonePlaceholderFilters()
    ensures AreaNames(["NONE"]) == ["none"]
    ensures VocabularyItems(["NONE"]) == []
  {
    NonePlaceholderKept();
    NonePlaceholderDropped();
    ComprehensionSingle("NONE", KeepArea, Cleaned);
    ComprehensionSingle("NONE", KeepWord, Cleaned);
  }

  lemma ComprehensionSingle(x: string, keep: string -> bool, f: string -> string)
    ensures Comprehension([x], keep, f) == if keep(x) then [f(x)] else []
  {
    assert [x][1..] == [];
  }

  lemma NonePlaceholderKept()
    ensures KeepArea("NONE") && Cleaned("NONE") == "none"
  {
    StrippedNone();
    StripNone();
    LowerNone();
  }

  lemma StrippedNone()
    ensures Strip("NONE") != "" && Strip("NONE") != "None"
  {
    StripNone();
    NoneSpellings();
  }

  lemma NoneSpellings()
    ensures "NONE" != "None"
  {
    assert "NONE"[1] != "None"[1];
  }

  lemma NonePlaceholderDropped()
    ensures !KeepWord("NONE")
  {
    StripNone();
    LowerNone();
  }

  lemma StripNone()
    ensures Strip("NONE") == "NONE"
  {
    StripNoop("NONE");
  }

  lemma LowerNone()
    ensures ToLower("NONE") == "none"
  {
    forall i | 0 <= i < 4
      ensures ToLower("NONE")[i] == "none"[i]
    {
    }
  }

  /** The area list, as `_load_areas` assigns it from the rendered template; the
      fallback list when the request fails. */
  function AreasFrom(response: Option<string>): (areas: seq<string>)
    ensures response.None? ==> areas == FallbackAreas
  {
    match response
    case None => FallbackAreas
    case Some(text) => AreaNames(Split(text, '|'))
  }

  /** `get_voice_vocabulary` on the rendered template; the empty list when the request fails. */
  function VocabularyFrom(response: Option<string>): (vocabulary: seq<string>)
    ensures response.None? ==> vocabulary == []
  {
    match response
    case None => []
    case Some(text) => VocabularyItems(Split(Strip(text), '|'))
  }

  /** The fallback area list as the source spells it: the kitchen is written in a
      doubly encoded form. */
  const FallbackAreasAsWritten: seq<string> := ["wohnzimmer", "kÃ¼che", "schlafzimmer", "bad"]

  /** The fallback area list with the kitchen spelled as the area name is spoken. */
  const FallbackAreas: seq<string> := ["wohnzimmer", "küche", "schlafzimmer", "bad"]

  /** The areas occurring in the lower-cased text, other than the current room. */
  function MentionedOtherRooms(areas: seq<string>, text: string, room: string): seq<string>
    decreases |areas|
  {
    if areas == [] then []
    else
      var rest := MentionedOtherRooms(areas[1..], text, room);
      if IsSubstring(areas[0], ToLower(text)) && areas[0] != ToLower(room) then [areas[0]] + rest else rest
  }

  lemma {:induction false} MentionedOtherRoomsMembers(areas: seq<string>, text: string, room: string, a: string)
    ensures a in MentionedOtherRooms(areas, text, room) <==>
              a in areas && IsSubstring(a, ToLower(text)) && a != ToLower(room)
    decreases |areas|
  {
    if areas != [] {
      MentionedOtherRoomsMembers(areas[1..], text, room, a);
      assert areas == [areas[0]] + areas[1..];
    }
  }

  /** With the fallback list as written, a command naming the kitchen mentions no other
      room; with the kitchen spelled correctly it does. */
  lemma FallbackKitchenMissed()
    ensures "küche" !in FallbackAreasAsWritten
    ensures MentionedOtherRooms(FallbackAreasAsWritten, "küche", "bad") == []
    ensures MentionedOtherRooms(FallbackAreas, "küche", "bad") == ["küche"]
  {
    var text := "küche";
    assert ToLower(text) == text;
    assert OccursAt("küche", text, 0);
    assert !IsSubstring("kÃ¼che", text);
    assert !IsSubstring("wohnzimmer", text);
    assert !IsSubstring("schlafzimmer", text);
    assert !IsSubstring("bad", text) by {
      forall i | 0 <= i <= |text| ensures !OccursAt("bad", text, i) {
        assert i + 3 > |text| || text[i] != 'b';
      }
    }
    assert ToLower("bad") == "bad";
  }

  /** One device-context line: fields 0, 2 and 1 stripped, as a JSON-like object. */
  function ContextLine(parts: seq<string>): (line: string)
    requires |parts| >= 3
    ensures line != [] && line[0] == '{'
  {
    "{\"entity_id\": \"" + Strip(parts[0]) + "\", \"name\": \"" + Strip(parts[2]) + "\", \"state\": \""
    + Strip(parts[1]) + "\"}"
  }

  /** A segment that yields a context line: not blank, and with at least three fields. */
  predicate Qualifies(segment: string) {
    Strip(segment) != "" && |Split(segment, ',')| >= 3
  }

  /** The qualifying segments, each as a context line, in order. */
  function ContextLines(segments: seq<string>): (lines: seq<string>)
    ensures lines != [] ==> lines[0] != "" && lines[0][0] == '{'
    ensures |lines| <= |segments|
    decreases |segments|
  {
    if segments == [] then []
    else
      var rest := ContextLines(segments[1..]);
      if Qualifies(segments[0]) then [ContextLine(Split(segments[0], ','))] + rest
      else rest
  }

  /** Every context line is a JSON-like object: it starts with `{`. */
  lemma {:induction false} ContextLinesObjects(segments: seq<string>)
    ensures forall k :: 0 <= k < |ContextLines(segments)| ==> ContextLines(segments)[k] != [] && ContextLines(segments)[k][0] == '{'
    decreases |segments|
  {
    if segments != [] {
      ContextLinesObjects(segments[1..]);
      var rest := ContextLines(segments[1..]);
      if Qualifies(segments[0]) {
        var lines := [ContextLine(Split(segments[0], ','))] + rest;
        assert ContextLines(segments) == lines;
        forall k | 0 < k < |lines| ensures lines[k] != [] && lines[k][0] == '{' {
          assert lines[k] == rest[k - 1];
        }
      }
    }
  }

  /** The segment qualifies and parses into the line. */
  predicate Yields(segment: string, line: string) {
    Qualifies(segment) && line == ContextLine(Split(segment, ','))
  }

  /** A line comes out exactly when some qualifying segment parses into it. */
  lemma ContextLinesMembers(segments: seq<string>, line: string)
    ensures line in ContextLines(segments) <==> exists j :: 0 <= j < |segments| && Yields(segments[j], line)
  {
    if line in ContextLines(segments) {
      var j := ContextLinesSource(segments, line);
      assert Yields(segments[j], line);
    }
    if exists j :: 0 <= j < |segments| && Yields(segments[j], line) {
      var j :| 0 <= j < |segments| && Yields(segments[j], line);
      ContextLinesProduced(segments, j);
    }
  }

  /** The first segment contributes its line, if it yields one, before the rest. */
  lemma ContextLinesUnfold(segments: seq<string>)
    requires segments != []
    ensures ContextLines(segments) == Contributed(segments[0]) + ContextLines(segments[1..])
  {
  }

  /** The line a segment contributes: its context line when it qualifies, none otherwise. */
  function Contributed(segment: string): seq<string> {
    if Qualifies(segment) then [ContextLine(Split(segment, ','))] else []
  }

  /** Every line comes from a qualifying segment: the one at index `j`. */
  lemma {:induction false} ContextLinesSource(segments: seq<string>, line: string) returns (j: int)
    requires line in ContextLines(segments)
    ensures 0 <= j < |segments| && Qualifies(segments[j]) && line == ContextLine(Split(segments[j], ','))
    decreases |segments|
  {
    ContextLinesUnfold(segments);
    if line in Contributed(segments[0]) {
      j := 0;
    } else {
      var k := ContextLinesSource(segments[1..], line);
      j := k + 1;
    }
  }

  /** A qualifying segment puts its line among the context lines. */
  lemma {:induction false} ContextLinesProduced(segments: seq<string>, j: int)
    requires 0 <= j < |segments| && Qualifies(segments[j])
    ensures ContextLine(Split(segments[j], ',')) in ContextLines(segments)
    decreases |segments|
  {
    var rest := segments[1..];
    ContextLinesUnfold(segments);
    if j > 0 {
      assert rest[j - 1] == segments[j];
      ContextLinesProduced(rest, j - 1);
    }
  }

  const NoRelevantDevices: string := "No relevant devices found."
  const NoDevices: string := "No devices found."

  /** The context `get_dynamic_context` returns for the rendered template. */
  function ContextFrom(response: Option<string>): string {
    match response
    case None => NoDevices
    case Some(text) =>
      var finalContext := Join("\n", ContextLines(Split(Strip(text), '|')));
      if finalContext != "" then finalContext else NoRelevantDevices
  }

  lemma {:induction false} JoinNonEmpty(sep: string, parts: seq<string>)
    requires parts != [] && parts[0] != ""
    ensures Join(sep, parts) != "" && Join(sep, parts)[0] == parts[0][0]
  {
    if |parts| > 1 {
      assert Join(sep, parts) == parts[0] + (sep + Join(sep, parts[1..]));
    }
  }

  /** The "no relevant devices" answer comes exactly when no segment qualifies; the
      failure answer comes only from a failed request. */
  lemma ContextFromCases(response: Option<string>)
    ensures response.None? <==> ContextFrom(response) == NoDevices
    ensures response.Some? ==>
              (ContextFrom(response) == NoRelevantDevices <==> ContextLines(Split(Strip(response.value), '|')) == [])
  {
    if response.Some? {
      var lines := ContextLines(Split(Strip(response.value), '|'));
      if lines != [] {
        JoinNonEmpty("\n", lines);
        assert ContextFrom(response)[0] == '{';
      }
    }
  }

  /** A device as the context template renders it: `entity,state,friendly_name|`. */
  datatype Device = Device(entityId: string, state: string, name: string)

  /** The fields of one device as the template writes them, before its `|`. */
  function Segment(d: Device): string {
    d.entityId + "," + d.state + "," + d.name
  }

  function Rendered(devices: seq<Device>): string
    decreases |devices|
  {
    if devices == [] then "" else Segment(devices[0]) + "|" + Rendered(devices[1..])
  }

  /** A field the template can render without confusing the parser. */
  predicate PlainField(f: string) {
    ',' !in f && '|' !in f && (f != [] ==> !IsSpace(f[0]) && !IsSpace(f[|f| - 1]))
  }

  /** The context line a device should produce: id, name, state. */
  function DeviceLine(d: Device): string {
    "{\"entity_id\": \"" + d.entityId + "\", \"name\": \"" + d.name + "\", \"state\": \"" + d.state + "\"}"
  }

  function DeviceLines(devices: seq<Device>): seq<string>
    decreases |devices|
  {
    if devices == [] then [] else [DeviceLine(devices[0])] + DeviceLines(devices[1..])
  }

  predicate PlainDevice(d: Device) {
    d.entityId != "" && PlainField(d.entityId) && PlainField(d.state) && PlainField(d.name)
  }

  lemma JoinThree(a: string, b: string, c: string, sep: char)
    ensures Join([sep], [a, b, c]) == a + [sep] + b + [sep] + c
  {
    assert [a, b, c][1..] == [b, c];
    assert [b, c][1..] == [c];
    assert Join([sep], [b, c]) == b + [sep] + c;
    assert Join([sep], [a, b, c]) == a + [sep] + (b + [sep] + c);
  }

  /** One rendered segment parses into the device's line. */
  lemma SegmentParses(d: Device)
    requires PlainDevice(d)
    ensures Strip(Segment(d)) != ""
    ensures |Split(Segment(d), ',')| >= 3
    ensures ContextLine(Split(Segment(d), ',')) == DeviceLine(d)
  {
    var segment := Segment(d);
    JoinThree(d.entityId, d.state, d.name, ',');
    assert Join([','], [d.entityId, d.state, d.name]) == segment;
    SplitJoin([d.entityId, d.state, d.name], ',');
    StripNoop(d.entityId);
    StripNoop(d.state);
    StripNoop(d.name);
    assert segment[0] == d.entityId[0];
    assert !IsSpace(d.entityId[0]);
  }

  /** The first rendered device's segment is the first piece of the split. */
  lemma RenderedSplit(devices: seq<Device>)
    requires devices != [] && PlainDevice(devices[0])
    ensures Split(Rendered(devices), '|') == [Segment(devices[0])] + Split(Rendered(devices[1..]), '|')
  {
    var segment := Segment(devices[0]);
    var rest := Rendered(devices[1..]);
    assert Rendered(devices) == segment + ("|" + rest);
    assert '|' !in segment;
    SplitPrefix(segment, "|" + rest, '|');
    assert ("|" + rest)[1..] == rest;
  }

  /** Parsing gives back one line per rendered device, fields in the order id, name,
      state, when the fields contain no separator, carry no surrounding whitespace, and
      the entity id is not empty. */
  lemma {:induction false} ContextRoundTrip(devices: seq<Device>)
    requires forall k :: 0 <= k < |devices| ==> PlainDevice(devices[k])
    ensures ContextLines(Split(Rendered(devices), '|')) == DeviceLines(devices)
    decreases |devices|
  {
    if devices == [] {
      assert Split("", '|') == [""];
      assert Strip("") == "";
      assert [""][1..] == [];
    } else {
      ContextRoundTrip(devices[1..]);
      RenderedSplit(devices);
      SegmentParses(devices[0]);
      ContextLinesCons(Segment(devices[0]), Split(Rendered(devices[1..]), '|'));
    }
  }

  /** A qualifying segment in front contributes its line in front. */
  lemma ContextLinesCons(segment: string, rest: seq<string>)
    requires Qualifies(segment)
    ensures ContextLines([segment] + rest) == [ContextLine(Split(segment, ','))] + ContextLines(rest)
  {
    assert ([segment] + rest)[0] == segment && ([segment] + rest)[1..] == rest;
  }

  predicate IsSlash(c: char) {
    c == '/'
  }

  /** Trailing slashes never matter: a base URL with one more is stored the same way. */
  lemma BaseUrlTrailingSlash(baseUrl: string)
    ensures RStripWhere(baseUrl + "/", IsSlash) == RStripWhere(baseUrl, IsSlash)
    ensures RStripWhere(RStripWhere(baseUrl, IsSlash), IsSlash) == RStripWhere(baseUrl, IsSlash)
  {
    assert (baseUrl + "/")[..|baseUrl|] == baseUrl;
  }

  class HomeAssistantClient {
    /** The base URL without trailing slashes. */
    const baseUrl: string
    const headers: map<string, string>
    /** The area names, loaded on first use. */
    var areas: seq<string>

    constructor(baseUrl: string, token: string)
      ensures this.baseUrl == RStripWhere(baseUrl, IsSlash)
      ensures this.baseUrl != [] ==> this.baseUrl[|this.baseUrl| - 1] != '/'
      ensures headers == map["Authorization" := "Bearer " + token, "Content-Type" := "application/json"]
      ensures areas == []
    {
      this.baseUrl := RStripWhere(baseUrl, IsSlash);
      headers := map["Authorization" := "Bearer " + token, "Content-Type" := "application/json"];
      areas := [];
    }

    /** `_load_areas`, given the rendered area template (`None` when the request fails). */
    method LoadAreas(response: Option<string>)
      modifies this
      ensures areas == AreasFrom(response)
    {
      match response {
        case None =>
          areas := ["wohnzimmer", "küche", "schlafzimmer", "bad"];
        case Some(text) =>
          areas := AreaNames(Split(text, '|'));
      }
    }

    /** `get_dynamic_context`: the areas are loaded when still empty, the domains follow
        the route, and the rendered context template is parsed. `render` stands for Home
        Assistant rendering the template for the allowed domains, the lower-cased room,
        the local-command flag and the label (`None` when the request fails). */
    method GetDynamicContext(text: string, room: string, route: Option<string>, voiceLabel: string,
                             areasResponse: Option<string>,
                             render: (seq<string>, string, bool, string) -> Option<string>)
      returns (context: string)
      modifies this
      ensures old(areas) != [] ==> areas == old(areas)
      ensures old(areas) == [] ==> areas == AreasFrom(areasResponse)
      ensures context == ContextFrom(render(AllowedDomains(route), ToLower(room), false, voiceLabel))
    {
      var allowedDomains := AllowedDomains(route);
      if areas == [] {
        LoadAreas(areasResponse);
      }
      var isLocalCommand := false;
      var response := render(allowedDomains, ToLower(room), isLocalCommand, voiceLabel);
      match response {
        case None =>
          context := NoDevices;
        case Some(rendered) =>
          var contextLines := ContextLines(Split(Strip(rendered), '|'));
          var finalContext := Join("\n", contextLines);
          context := if finalContext != "" then finalContext else NoRelevantDevices;
      }
    }
  }
}
