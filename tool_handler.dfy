/** The tool handlers: each tool turns its keyword arguments into at most one Home
    Assistant service call or state query and a German answer, and `execute_tool`
    dispatches a tool name to its handler. The Home Assistant client is abstract. */
module ToolHandler {
  import opened Common
  import opened Text
  import opened HaClient

  /** The Home Assistant client: `call_service`, and `get_state`, which gives `None` for
      a missing or empty state object. */
  datatype Ha = Ha(callService: ServiceCall -> CallOutcome, getState: string -> Option<EntityState>)

  /** The calls a handler issued, and what it returned: `None` when it raised (the
      exception `execute_tool` swallows). */
  datatype ToolRun = ToolRun(calls: seq<ServiceCall>, output: Option<string>)

  function Raises(): ToolRun {
    ToolRun([], None)
  }

  /** Python's numbers among the scalars: integers, and booleans as 0 and 1. */
  function AsInt(v: Value): Option<int> {
    match v
    case VInt(i) => Some(i)
    case VBool(b) => Some(if b then 1 else 0)
    case _ => None
  }

  /** `sanitize_room`: lower-case, spaces to `_`, and the umlauts spelled out. */
  function SanitizeRoom(room: string): string {
    Replace(Replace(Replace(Replace(ToLower(room), " ", "_"), "ü", "ue"), "ö", "oe"), "ä", "ae")
  }

  /** A sanitized room holds no space, no lower-case umlaut and no upper-case letter. */
  lemma SanitizeRoomClean(room: string)
    ensures forall c :: c in SanitizeRoom(room) ==> c != ' ' && c != 'ü' && c != 'ö' && c != 'ä' && !IsUpperChar(c)
  {
    var s0 := ToLower(room);
    ToLowerIsLower(room);
    var s1 := Replace(s0, " ", "_");
    ReplaceCharSpec(s0, ' ', "_");
    var s2 := Replace(s1, "ü", "ue");
    ReplaceCharSpec(s1, 'ü', "ue");
    var s3 := Replace(s2, "ö", "oe");
    ReplaceCharSpec(s2, 'ö', "oe");
    ReplaceCharSpec(s3, 'ä', "ae");
    assert forall c :: c in s0 ==> !IsUpperChar(c);
  }

  /** `room.lower().replace(' ', '_')`, the simpler form some handlers use. */
  function Underscored(room: string): string {
    Replace(ToLower(room), " ", "_")
  }

  /** The two spellings of a room disagree on umlauts: a kitchen addressed as
      `media_player.kueche` or `timer.kueche` is looked up as `...küche`. */
  lemma RoomSpellingsDiffer()
    ensures SanitizeRoom("Küche") == "kueche"
    ensures Underscored("Küche") == "küche"
  {
    LowerKitchen();
    ReplaceCharAbsent("küche", ' ', "_");
    UmlautKitchen();
    ReplaceCharAbsent("kueche", 'ö', "oe");
    ReplaceCharAbsent("kueche", 'ä', "ae");
  }

  lemma LowerKitchen()
    ensures ToLower("Küche") == "küche"
  {
    forall i | 0 <= i < 5 ensures ToLower("Küche")[i] == "küche"[i] { }
  }

  lemma UmlautKitchen()
    ensures Replace("küche", "ü", "ue") == "kueche"
  {
    ReplaceCharAbsent("che", 'ü', "ue");
    assert "üche"[..1] == "ü" && "üche"[1..] == "che";
    assert Replace("üche", "ü", "ue") == "ue" + "che";
    assert "küche"[..1] != "ü" && "küche"[1..] == "üche";
    assert Replace("küche", "ü", "ue") == "k" + ("ue" + "che");
  }

  /** The handlers `TOOL_MAPPING` dispatches to. */
  datatype Tool =
    | ControlLightTool | SetTemperatureTool | PlayMusicTool | ActivateSceneTool
    | StopMusicTool | NextTrackTool | PreviousTrackTool | QueueMusicTool
    | ResumeMusicTool | WhatsPlayingTool | ClearQueueTool | SetTimerTool

  /** The key each handler is registered under. */
  function ToolName(t: Tool): string {
    match t
    case ControlLightTool => "control_light"
    case SetTemperatureTool => "set_temperature"
    case PlayMusicTool => "play_music"
    case ActivateSceneTool => "activate_scene"
    case StopMusicTool => "stop_music"
    case NextTrackTool => "next_track"
    case PreviousTrackTool => "previous_track"
    case QueueMusicTool => "queue_music"
    case ResumeMusicTool => "resume_music"
    case WhatsPlayingTool => "whats_playing"
    case ClearQueueTool => "clear_queue"
    case SetTimerTool => "set_timer"
  }

  /** `TOOL_MAPPING.get(name)`. */
  function Mapping(name: string): (t: Option<Tool>)
    ensures t.Some? ==> ToolName(t.value) == name
  {
    match name
    case "control_light" => Some(ControlLightTool)
    case "set_temperature" => Some(SetTemperatureTool)
    case "play_music" => Some(PlayMusicTool)
    case "activate_scene" => Some(ActivateSceneTool)
    case "stop_music" => Some(StopMusicTool)
    case "next_track" => Some(NextTrackTool)
    case "previous_track" => Some(PreviousTrackTool)
    case "queue_music" => Some(QueueMusicTool)
    case "resume_music" => Some(ResumeMusicTool)
    case "whats_playing" => Some(WhatsPlayingTool)
    case "clear_queue" => Some(ClearQueueTool)
    case "set_timer" => Some(SetTimerTool)
    case _ => None
  }

  /** Every handler is found under its own key. */
  lemma MappingFindsEveryTool(t: Tool)
    ensures Mapping(ToolName(t)) == Some(t)
  {
    match t
    case ControlLightTool =>
    case SetTemperatureTool =>
    case PlayMusicTool =>
    case ActivateSceneTool =>
    case StopMusicTool =>
    case NextTrackTool =>
    case PreviousTrackTool =>
    case QueueMusicTool => assert "queue_music"[0] == 'q';
    case ResumeMusicTool =>
    case WhatsPlayingTool =>
    case ClearQueueTool =>
    case SetTimerTool =>
  }

  /** The volume, Spotify, timer-cancel and remaining-time handlers are defined but not
      dispatched. */
  lemma UnmappedHandlers()
    ensures Mapping("manage_volume") == None && Mapping("play_spotify_music") == None
    ensures Mapping("cancel_timer") == None && Mapping("timer_remaining") == None
  {
  }

  /** The payload `control_light` sends: the entity, and the brightness when one is given. */
  function LightPayload(args: Args): (p: Args)
    ensures p.Keys <= {"entity_id", "brightness_pct"} && "entity_id" in p
    ensures p["entity_id"] == Get(args, "entity_id", VNull)
    ensures "brightness_pct" in p <==> Get(args, "brightness_pct", VNull) != VNull
    ensures "brightness_pct" in p ==> p["brightness_pct"] == args["brightness_pct"]
  {
    var payload := map["entity_id" := Get(args, "entity_id", VNull)];
    var brightness := Get(args, "brightness_pct", VNull);
    if brightness != VNull then payload["brightness_pct" := brightness] else payload
  }

  /** `control_light`: the popped `action` names the light service. */
  function ControlLightRun(args: Args, ha: Ha): (run: ToolRun)
    ensures "action" !in args ==> run == Raises()
    ensures "action" in args ==>
              var call := ServiceCall("light", Show(args["action"]), LightPayload(args));
              && run.calls == [call]
              && run.output == match ha.callService(call)
                                case Raised(_) => None
                                case Returned(ok) => Some(if ok then "Okay. Miau Miau"
                                                          else "Tut mir leid, ich konnte die Aktion leider nicht ausführen.")
  {
    if "action" !in args then Raises()
    else
      var action := args["action"];
      var kwargs := args - {"action"};
      var call := ServiceCall("light", Show(action), LightPayload(kwargs));
      match ha.callService(call)
      case Raised(_) => ToolRun([call], None)
      case Returned(ok) =>
        ToolRun([call], Some(if ok then "Okay. Miau Miau"
                             else "Tut mir leid, ich konnte die Aktion leider nicht ausführen."))
  }

  /** `control_light` as written: pop `action`, then build the payload step by step. */
  method ControlLight(args: Args, ha: Ha) returns (run: ToolRun)
    ensures run == ControlLightRun(args, ha)
  {
    if "action" !in args {
      return Raises();
    }
    var kwargs := args;
    var action := kwargs["action"];
    kwargs := kwargs - {"action"};
    var entityId := Get(kwargs, "entity_id", VNull);
    var brightnessPct := Get(kwargs, "brightness_pct", VNull);
    var payload := map["entity_id" := entityId];
    if brightnessPct != VNull {
      payload := payload["brightness_pct" := brightnessPct];
    }
    assert payload == LightPayload(kwargs);
    var call := ServiceCall("light", Show(action), payload);
    match ha.callService(call) {
      case Raised(_) =>
        run := ToolRun([call], None);
      case Returned(ok) =>
        run := ToolRun([call], Some(if ok then "Okay. Miau Miau"
                                    else "Tut mir leid, ich konnte die Aktion leider nicht ausführen."));
    }
  }

  /** `set_temperature`: the whole argument map is the payload. */
  function SetTemperature(args: Args, ha: Ha): (run: ToolRun)
    ensures run.calls == [ServiceCall("climate", "set_temperature", args)]
    ensures run.output.Some? <==> ha.callService(ServiceCall("climate", "set_temperature", args)).Returned?
  {
    var temp := Show(Get(args, "temperature", VNull));
    var call := ServiceCall("climate", "set_temperature", args);
    match ha.callService(call)
    case Raised(_) => ToolRun([call], None)
    case Returned(ok) =>
      ToolRun([call], Some(if ok then "Temperatur auf " + temp + " Grad gesetzt."
                           else "Konnte Temperatur nicht auf " + temp + " grad setzen."))
  }

  /** `activate_scene`: without a truthy entity no call is made. */
  function ActivateScene(args: Args, ha: Ha): (run: ToolRun)
    ensures !Truthy(Get(args, "entity_id", VNull)) ==>
              run == ToolRun([], Some("Error: No entity_id provided for the scene."))
    ensures Truthy(Get(args, "entity_id", VNull)) ==>
              run.calls == [ServiceCall("scene", "turn_on", map["entity_id" := args["entity_id"]])]
  {
    var entityId := Get(args, "entity_id", VNull);
    if !Truthy(entityId) then ToolRun([], Some("Error: No entity_id provided for the scene."))
    else
      var call := ServiceCall("scene", "turn_on", map["entity_id" := entityId]);
      match ha.callService(call)
      case Raised(_) => ToolRun([call], None)
      case Returned(ok) => ToolRun([call], Some(if ok then "Okay." else "Tut mir leid, konnte Szene nicht aktivieren"))
  }

  /** The payload `play_music` and `queue_music` send to `music_assistant.play_media`. */
  function MusicPayload(args: Args, room: string, enqueue: string): Args {
    map["entity_id" := VStr("media_player." + SanitizeRoom(room)),
        "media_id" := Get(args, "query", VNull),
        "media_type" := Get(args, "media_type", VStr("track")),
        "enqueue" := VStr(enqueue)]
  }

  /** `play_music`: the room has no default, so a missing room raises. */
  function PlayMusic(args: Args, ha: Ha): ToolRun {
    match Get(args, "room", VNull)
    case VStr(room) =>
      var call := ServiceCall("music_assistant", "play_media", MusicPayload(args, room, "play"));
      ToolRun([call], Some(match ha.callService(call)
                           case Raised(e) => "Fehler beim Starten der Musik: " + e
                           case Returned(_) => "Okay"))
    case _ => Raises()
  }

  /** `queue_music`: the same request with `enqueue` set to add, answered with "". */
  function QueueMusic(args: Args, ha: Ha): ToolRun {
    match Get(args, "room", VStr("wohnzimmer"))
    case VStr(room) =>
      var call := ServiceCall("music_assistant", "play_media", MusicPayload(args, room, "add"));
      ToolRun([call], Some(match ha.callService(call)
                           case Raised(e) => "Fehler beim Einreihen der Musik: " + e
                           case Returned(_) => ""))
    case _ => Raises()
  }

  /** With a room given, playing and queueing send the same request except for `enqueue`,
      and queueing answers with the empty string whenever the call returns. */
  lemma PlayAndQueueDiffer(args: Args, ha: Ha)
    requires Get(args, "room", VNull).VStr?
    ensures PlayMusic(args, ha).calls == [ServiceCall("music_assistant", "play_media", MusicPayload(args, args["room"].s, "play"))]
    ensures QueueMusic(args, ha).calls == [ServiceCall("music_assistant", "play_media", MusicPayload(args, args["room"].s, "add"))]
    ensures MusicPayload(args, args["room"].s, "play") == MusicPayload(args, args["room"].s, "add")["enqueue" := VStr("play")]
    ensures ha.callService(QueueMusic(args, ha).calls[0]).Returned? ==> QueueMusic(args, ha).output == Some("")
    ensures PlayMusic(args, ha).output.Some? && QueueMusic(args, ha).output.Some?
  {
  }

  /** The media-player commands `clear_queue`, `stop_music`, `next_track`,
      `previous_track` and `resume_music`: one call on the room's player, whose
      exception is reported rather than raised. */
  function MediaCommand(args: Args, ha: Ha, service: string, done: (string, string), failed: string): (run: ToolRun)
    ensures Get(args, "room", VStr("wohnzimmer")).VStr? <==> run.output.Some?
    ensures run.output.Some? ==>
              run.calls == [ServiceCall("media_player", service,
                             map["entity_id" := VStr("media_player." + SanitizeRoom(Get(args, "room", VStr("wohnzimmer")).s))])]
  {
    match Get(args, "room", VStr("wohnzimmer"))
    case VStr(room) =>
      var call := ServiceCall("media_player", service, map["entity_id" := VStr("media_player." + SanitizeRoom(room))]);
      ToolRun([call], Some(match ha.callService(call)
                           case Raised(e) => failed + e
                           case Returned(_) => done.0 + room + done.1))
    case _ => Raises()
  }

  function ClearQueue(args: Args, ha: Ha): ToolRun {
    MediaCommand(args, ha, "clear_playlist", ("Die Warteschlange im ", " wurde geleert."),
                 "Fehler beim Leeren der Warteschlange: ")
  }

  function StopMusic(args: Args, ha: Ha): ToolRun {
    MediaCommand(args, ha, "media_pause", ("Musik im ", " wurde gestoppt."), "Fehler beim Stoppen der Musik: ")
  }

  function NextTrack(args: Args, ha: Ha): ToolRun {
    MediaCommand(args, ha, "media_next_track", ("Nächstes Lied im ", " wird gespielt."),
                 "Fehler beim Überspringen des Liedes: ")
  }

  function PreviousTrack(args: Args, ha: Ha): ToolRun {
    MediaCommand(args, ha, "media_previous_track", ("Vorheriges Lied im ", " wird gespielt."),
                 "Fehler beim Zurückspringen: ")
  }

  function ResumeMusic(args: Args, ha: Ha): ToolRun {
    MediaCommand(args, ha, "media_play", ("Musik im ", " wird fortgesetzt."), "Fehler beim Fortsetzen der Musik: ")
  }

  /** The player states in which nothing is playing. */
  predicate IsIdlePlayer(state: Value) {
    state in [VStr("idle"), VStr("off"), VStr("standby"), VStr("unknown"), VStr("unavailable")]
  }

  /** `whats_playing`: no state is an error, an idle state means nothing plays, and
      otherwise title and artist are reported, with their defaults, paused or playing. */
  function WhatsPlaying(args: Args, ha: Ha): (run: ToolRun)
    ensures run.calls == []
    ensures Get(args, "room", VStr("wohnzimmer")).VStr? <==> run.output.Some?
    ensures Get(args, "room", VStr("wohnzimmer")).VStr? ==>
              var room := Get(args, "room", VStr("wohnzimmer")).s;
              run.output == Some(PlayerReport(room, ha.getState("media_player." + Underscored(room))))
  {
    match Get(args, "room", VStr("wohnzimmer"))
    case VStr(room) =>
      ToolRun([], Some(PlayerReport(room, ha.getState("media_player." + Underscored(room)))))
    case _ => Raises()
  }

  const UnknownTitle: string := "einem unbekannten Titel"
  const UnknownArtist: string := "einem unbekannten Künstler"

  function PlayerReport(room: string, stateData: Option<EntityState>): string {
    match stateData
    case None => "Konnte den Player-Status im " + room + " nicht abrufen."
    case Some(data) =>
      if IsIdlePlayer(data.state) then "Im " + room + " wird gerade nichts abgespielt."
      else
        var title := Show(Get(data.attributes, "media_title", VStr(UnknownTitle)));
        var artist := Show(Get(data.attributes, "media_artist", VStr(UnknownArtist)));
        if data.state == VStr("paused") then
          "Die Musik ist im " + room + " pausiert. Das aktuelle Lied ist '" + title + "' von " + artist + "."
        else "Im " + room + " läuft gerade '" + title + "' von " + artist + "."
  }

  /** The title or artist a report names: the attribute when present, else the default. */
  function Named(attributes: Args, key: string, default: string): string {
    if key in attributes then Show(attributes[key]) else default
  }

  /** The player report tells a missing state, an idle player, a paused one and a playing
      one apart, naming title and artist with their defaults. */
  lemma PlayerReportCases(room: string, stateData: Option<EntityState>)
    ensures stateData.None? ==> PlayerReport(room, stateData) == "Konnte den Player-Status im " + room + " nicht abrufen."
    ensures stateData.Some? && IsIdlePlayer(stateData.value.state) ==>
              PlayerReport(room, stateData) == "Im " + room + " wird gerade nichts abgespielt."
    ensures stateData.Some? && stateData.value.state == VStr("paused") ==>
              var a := stateData.value.attributes;
              PlayerReport(room, stateData)
              == "Die Musik ist im " + room + " pausiert. Das aktuelle Lied ist '" + Named(a, "media_title", UnknownTitle)
                 + "' von " + Named(a, "media_artist", UnknownArtist) + "."
    ensures stateData.Some? && !IsIdlePlayer(stateData.value.state) && stateData.value.state != VStr("paused") ==>
              var a := stateData.value.attributes;
              PlayerReport(room, stateData)
              == "Im " + room + " läuft gerade '" + Named(a, "media_title", UnknownTitle)
                 + "' von " + Named(a, "media_artist", UnknownArtist) + "."
  {
    if stateData.Some? && stateData.value.state == VStr("paused") {
      assert !IsIdlePlayer(VStr("paused"));
    }
  }

  /** A paused player is never reported like a playing, idle or missing one. */
  lemma PausedReportDistinct(room: string, paused: EntityState, other: Option<EntityState>)
    requires paused.state == VStr("paused")
    requires other.None? || other.value.state != VStr("paused")
    ensures PlayerReport(room, Some(paused)) != PlayerReport(room, other)
  {
    assert !IsIdlePlayer(VStr("paused"));
    assert PlayerReport(room, Some(paused))[0] == 'D';
    if other.None? {
      assert PlayerReport(room, other)[0] == 'K';
    } else {
      assert PlayerReport(room, other)[0] == 'I';
    }
  }

  /** The confirmation pieces of `set_timer`: each positive component with its unit,
      in the order hours, minutes, seconds. */
  function TimeParts(hours: Value, minutes: Value, seconds: Value, h: int, m: int, s: int): (parts: seq<string>)
    ensures |parts| == (if h > 0 then 1 else 0) + (if m > 0 then 1 else 0) + (if s > 0 then 1 else 0)
    ensures parts == [] <==> h <= 0 && m <= 0 && s <= 0
    ensures h > 0 ==> parts[0] == Show(hours) + " Stunden"
    ensures m > 0 ==> parts[if h > 0 then 1 else 0] == Show(minutes) + " Minuten"
    ensures s > 0 ==> parts[|parts| - 1] == Show(seconds) + " Sekunden"
  {
    (if h > 0 then [Show(hours) + " Stunden"] else [])
    + (if m > 0 then [Show(minutes) + " Minuten"] else [])
    + (if s > 0 then [Show(seconds) + " Sekunden"] else [])
  }

  const NoDuration: string := "Fehler: Es wurde keine Zeitdauer für den Timer angegeben."

  /** Hours, minutes and seconds as integers, when all three are numbers. */
  function TimerComponents(args: Args): (hms: Option<(int, int, int)>)
    ensures hms.Some? <==> (AsInt(Get(args, "hours", VInt(0))).Some? && AsInt(Get(args, "minutes", VInt(0))).Some?
                            && AsInt(Get(args, "seconds", VInt(0))).Some?)
  {
    var h, m, s := AsInt(Get(args, "hours", VInt(0))), AsInt(Get(args, "minutes", VInt(0))), AsInt(Get(args, "seconds", VInt(0)));
    if h.Some? && m.Some? && s.Some? then Some((h.value, m.value, s.value)) else None
  }

  /** The guard of `set_timer`: every component equals zero. */
  predicate NoTime(args: Args) {
    AsInt(Get(args, "hours", VInt(0))) == Some(0) && AsInt(Get(args, "minutes", VInt(0))) == Some(0)
    && AsInt(Get(args, "seconds", VInt(0))) == Some(0)
  }

  /** The `timer.start` call: the sanitized timer entity and the duration in seconds. */
  function TimerCall(room: string, hms: (int, int, int)): ServiceCall {
    ServiceCall("timer", "start", map["entity_id" := VStr("timer." + SanitizeRoom(room)),
                                      "duration" := VInt(3600 * hms.0 + 60 * hms.1 + hms.2)])
  }

  /** The duration `set_timer` sends is what `timer_remaining` splits back into the same
      hours, minutes and seconds, when those are canonical and not all zero. */
  lemma TimerDurationRoundTrip(room: string, h: int, m: int, s: int)
    requires h >= 0 && 0 <= m < 60 && 0 <= s < 60 && !(h == 0 && m == 0 && s == 0)
    ensures TimerCall(room, (h, m, s)).payload["duration"].VInt?
    ensures Decompose(TimerCall(room, (h, m, s)).payload["duration"].i) == (h, m, s)
  {
    DecomposeRoundTrip(h, m, s);
  }

  /** The confirmation of a started timer. */
  function TimerStarted(args: Args, room: string, hms: (int, int, int)): string {
    "Timer für " + Join(", ", TimeParts(Get(args, "hours", VInt(0)), Get(args, "minutes", VInt(0)),
                                       Get(args, "seconds", VInt(0)), hms.0, hms.1, hms.2))
    + " im " + room + " gestartet."
  }

  /** What `set_timer` does, as a value. */
  function SetTimerRun(args: Args, ha: Ha): (run: ToolRun)
    ensures NoTime(args) ==> run == ToolRun([], Some(NoDuration))
    ensures run.calls != [] <==> !NoTime(args) && Get(args, "room", VStr("wohnzimmer")).VStr? && TimerComponents(args).Some?
    ensures run.calls != [] ==>
              run.calls == [TimerCall(Get(args, "room", VStr("wohnzimmer")).s, TimerComponents(args).value)]
    ensures run.calls != [] && ha.callService(run.calls[0]) == Returned(true) ==>
              run.output == Some(TimerStarted(args, Get(args, "room", VStr("wohnzimmer")).s, TimerComponents(args).value))
    ensures run.calls == [] && !NoTime(args) ==> run == Raises()
  {
    var roomValue := Get(args, "room", VStr("wohnzimmer"));
    if NoTime(args) then ToolRun([], Some(NoDuration))
    else if !roomValue.VStr? || TimerComponents(args).None? then Raises()
    else
      var call := TimerCall(roomValue.s, TimerComponents(args).value);
      match ha.callService(call)
      case Raised(_) => ToolRun([call], None)
      case Returned(ok) =>
        if ok then ToolRun([call], Some(TimerStarted(args, roomValue.s, TimerComponents(args).value)))
        else ToolRun([call], Some("Fehler: Konnte den Timer im " + roomValue.s + " nicht starten."))
  }

  /** The `time_parts` list of `set_timer`, appended piece by piece. */
  method CollectTimeParts(hours: Value, minutes: Value, seconds: Value, h: int, m: int, s: int)
    returns (timeParts: seq<string>)
    ensures timeParts == TimeParts(hours, minutes, seconds, h, m, s)
  {
    timeParts := [];
    if h > 0 {
      timeParts := timeParts + [Show(hours) + " Stunden"];
    }
    if m > 0 {
      timeParts := timeParts + [Show(minutes) + " Minuten"];
    }
    if s > 0 {
      timeParts := timeParts + [Show(seconds) + " Sekunden"];
    }
  }

  /** `set_timer`, building the confirmation pieces by appending. */
  method SetTimer(args: Args, ha: Ha) returns (run: ToolRun)
    ensures run == SetTimerRun(args, ha)
  {
    var hours := Get(args, "hours", VInt(0));
    var minutes := Get(args, "minutes", VInt(0));
    var seconds := Get(args, "seconds", VInt(0));
    var roomValue := Get(args, "room", VStr("wohnzimmer"));
    if AsInt(hours) == Some(0) && AsInt(minutes) == Some(0) && AsInt(seconds) == Some(0) {
      return ToolRun([], Some(NoDuration));
    }
    if !roomValue.VStr? || AsInt(hours).None? || AsInt(minutes).None? || AsInt(seconds).None? {
      return Raises();
    }
    var room := roomValue.s;
    var h, m, s := AsInt(hours).value, AsInt(minutes).value, AsInt(seconds).value;
    var call := TimerCall(room, (h, m, s));
    match ha.callService(call) {
      case Raised(_) =>
        return ToolRun([call], None);
      case Returned(ok) =>
        if !ok {
          return ToolRun([call], Some("Fehler: Konnte den Timer im " + room + " nicht starten."));
        }
    }
    var timeParts := CollectTimeParts(hours, minutes, seconds, h, m, s);
    var timeStr := Join(", ", timeParts);
    run := ToolRun([call], Some("Timer für " + timeStr + " im " + room + " gestartet."));
  }

  /** `cancel_timer` (reachable only by calling it directly: it is not in `TOOL_MAPPING`). */
  /** `cancel_timer`: exactly one `timer.cancel` on the room's timer when the room is a
      string, and an answer unless that call raised; success and failure answers differ. */
  function CancelTimer(args: Args, ha: Ha): (run: ToolRun)
    ensures run.calls != [] <==> Get(args, "room", VStr("wohnzimmer")).VStr?
    ensures run.calls != [] ==>
              var room := Get(args, "room", VStr("wohnzimmer")).s;
              run.calls == [ServiceCall("timer", "cancel", map["entity_id" := VStr("timer." + Underscored(room))])] &&
              (run.output.Some? <==> ha.callService(run.calls[0]).Returned?) &&
              (run.output.Some? ==>
                 (ha.callService(run.calls[0]).ok <==> run.output.value == "Timer im " + room + " wurde abgebrochen."))
    ensures run.calls == [] ==> run.output == None
  {
    match Get(args, "room", VStr("wohnzimmer"))
    case VStr(room) =>
      var call := ServiceCall("timer", "cancel", map["entity_id" := VStr("timer." + Underscored(room))]);
      match ha.callService(call) {
        case Raised(_) => ToolRun([call], None)
        case Returned(ok) =>
          ToolRun([call], Some(if ok then "Timer im " + room + " wurde abgebrochen."
                               else "Fehler: Konnte den Timer im " + room + " nicht abbrechen. Überprüfe die Logs."))
      }
    case _ => Raises()
  }

  /** The two `divmod` steps of `timer_remaining`. */
  function Decompose(total: int): (hms: (int, int, int))
    requires total > 0
    ensures total == 3600 * hms.0 + 60 * hms.1 + hms.2
    ensures hms.0 >= 0 && 0 <= hms.1 < 60 && 0 <= hms.2 < 60
  {
    var minutes, seconds := total / 60, total % 60;
    var hours, minutes' := minutes / 60, minutes % 60;
    (hours, minutes', seconds)
  }

  /** Decomposition is the inverse of the duration sum over canonical components. */
  lemma DecomposeRoundTrip(h: int, m: int, s: int)
    requires h >= 0 && 0 <= m < 60 && 0 <= s < 60 && 3600 * h + 60 * m + s > 0
    ensures Decompose(3600 * h + 60 * m + s) == (h, m, s)
  {
    var total := 3600 * h + 60 * m + s;
    assert total == (60 * h + m) * 60 + s;
    assert total / 60 == 60 * h + m && total % 60 == s;
    assert (60 * h + m) / 60 == h && (60 * h + m) % 60 == m;
  }

  const Running: string := "Der Timer läuft noch "

  /** The remaining-time sentence, by whether hours, then minutes, are positive. */
  function RemainingMessage(total: int): (msg: string)
    requires total > 0
    ensures |msg| > |Running| && msg[..|Running|] == Running
  {
    var hms := Decompose(total);
    if hms.0 > 0 then
      Running + IntToString(hms.0) + " Stunden, " + IntToString(hms.1) + " Minuten und "
      + IntToString(hms.2) + " Sekunden."
    else if hms.1 > 0 then
      Running + IntToString(hms.1) + " Minuten und " + IntToString(hms.2) + " Sekunden."
    else Running + IntToString(hms.2) + " Sekunden."
  }

  /** Under an hour the hours are not mentioned; under a minute only seconds are. */
  lemma RemainingMessageForms(total: int)
    requires total > 0
    ensures total >= 3600 ==> Decompose(total).0 > 0
    ensures total < 3600 ==> Decompose(total).0 == 0
    ensures total < 60 ==> RemainingMessage(total) == "Der Timer läuft noch " + IntToString(total) + " Sekunden."
  {
  }

  /** `timer_remaining`, with `secondsLeft` standing for the whole seconds until the
      timer's `finishes_at`, which the source reads from the clock. */
  function TimerRemaining(args: Args, ha: Ha, secondsLeft: int): ToolRun {
    match Get(args, "room", VStr("wohnzimmer"))
    case VStr(room) =>
      ToolRun([], Some(TimerReport(room, ha.getState("timer." + Underscored(room)), secondsLeft)))
    case _ => Raises()
  }

  function TimerReport(room: string, stateData: Option<EntityState>, secondsLeft: int): (msg: string)
    ensures stateData.Some? && stateData.value.state == VStr("active")
            && Truthy(Get(stateData.value.attributes, "finishes_at", VNull)) ==>
              msg == if secondsLeft <= 0 then "Der Timer im " + room + " ist gerade abgelaufen."
                     else RemainingMessage(secondsLeft)
  {
    match stateData
    case None => "Konnte den Timer-Status im " + room + " nicht abrufen. Möglicherweise existiert er nicht."
    case Some(data) =>
      if data.state == VStr("idle") then "Es läuft aktuell kein Timer im " + room + "."
      else if data.state == VStr("active") then
        if Truthy(Get(data.attributes, "finishes_at", VNull)) then
          if secondsLeft <= 0 then "Der Timer im " + room + " ist gerade abgelaufen."
          else RemainingMessage(secondsLeft)
        else "Der Timer im " + room + " ist aktiv, aber ich kann die verbleibende Zeit nicht berechnen."
      else if data.state == VStr("paused") then "Der Timer im " + room + " ist derzeit pausiert."
      else "Der Status des Timers im " + room + " ist: " + Show(data.state) + "."
  }

  const Expired: string := " ist gerade abgelaufen."

  /** The "just expired" answer comes exactly from an active timer with a finishing time
      and no whole second left. */
  lemma TimerReportExpired(room: string, stateData: Option<EntityState>, secondsLeft: int)
    ensures TimerReport(room, stateData, secondsLeft) == "Der Timer im " + room + Expired <==>
              && stateData.Some? && stateData.value.state == VStr("active")
              && Truthy(Get(stateData.value.attributes, "finishes_at", VNull)) && secondsLeft <= 0
  {
    var msg := TimerReport(room, stateData, secondsLeft);
    var expired := "Der Timer im " + room + Expired;
    assert expired[0] == 'D' && expired[4] == 'T' && expired[10] == 'i';
    if stateData.Some? {
      var data := stateData.value;
      if data.state == VStr("active") {
        if !Truthy(Get(data.attributes, "finishes_at", VNull)) {
          assert |msg| > |expired|;
        } else if secondsLeft > 0 {
          assert msg[..|Running|] == Running;
          assert msg[10] == Running[10] == 'l';
        }
      } else if data.state == VStr("paused") {
        assert |msg| < |expired|;
      } else if data.state != VStr("idle") {
        assert msg[4] == 'S';
      } else {
        assert msg[0] == 'E';
      }
    } else {
      assert msg[0] == 'K';
    }
  }

  function NotImplemented(name: string): string {
    "Error: Tool " + ("'" + name + "'") + " is defined in JSON but not implemented in Python."
  }

  /** The handler `TOOL_MAPPING` names, run on the arguments. */
  function ToolRunOf(tool: Tool, args: Args, ha: Ha): ToolRun {
    match tool
    case ControlLightTool => ControlLightRun(args, ha)
    case SetTemperatureTool => SetTemperature(args, ha)
    case PlayMusicTool => PlayMusic(args, ha)
    case ActivateSceneTool => ActivateScene(args, ha)
    case StopMusicTool => StopMusic(args, ha)
    case NextTrackTool => NextTrack(args, ha)
    case PreviousTrackTool => PreviousTrack(args, ha)
    case QueueMusicTool => QueueMusic(args, ha)
    case ResumeMusicTool => ResumeMusic(args, ha)
    case WhatsPlayingTool => WhatsPlaying(args, ha)
    case ClearQueueTool => ClearQueue(args, ha)
    case SetTimerTool => SetTimerRun(args, ha)
  }

  /** What `execute_tool` does: an unknown name is reported without running anything;
      a `context` keyword clashes with the handler's own parameter and raises; otherwise
      the named handler runs. */
  function ExecuteToolRun(name: string, args: Args, ha: Ha): ToolRun {
    match Mapping(name)
    case None => ToolRun([], Some(NotImplemented(name)))
    case Some(tool) => if "context" in args then Raises() else ToolRunOf(tool, args, ha)
  }

  /** Nothing reaches Home Assistant for an unknown tool, whose answer names it, or for
      arguments that clash with the handler's `context` parameter, which give no answer. */
  lemma ExecuteToolRejects(name: string, args: Args, ha: Ha)
    ensures Mapping(name) == None ==>
              ExecuteToolRun(name, args, ha).calls == [] && IsSubstring("'" + name + "'", ExecuteToolRun(name, args, ha).output.value)
    ensures Mapping(name) != None && "context" in args ==> ExecuteToolRun(name, args, ha) == ToolRun([], None)
  {
    if Mapping(name) == None {
      var msg := NotImplemented(name);
      var pre, quoted := "Error: Tool ", "'" + name + "'";
      var post := " is defined in JSON but not implemented in Python.";
      assert msg[|pre|..|pre| + |quoted|] == quoted;
      assert OccursAt(quoted, msg, |pre|);
    }
  }

  /** Every handler is reached through its own key. */
  lemma ExecuteToolDispatches(tool: Tool, args: Args, ha: Ha)
    requires "context" !in args
    ensures ExecuteToolRun(ToolName(tool), args, ha) == ToolRunOf(tool, args, ha)
  {
    MappingFindsEveryTool(tool);
  }

  /** `execute_tool`, running the imperative handlers as methods. */
  method ExecuteTool(name: string, args: Args, ha: Ha) returns (run: ToolRun)
    ensures run == ExecuteToolRun(name, args, ha)
  {
    var tool := Mapping(name);
    if tool == None {
      return ToolRun([], Some(NotImplemented(name)));
    }
    if "context" in args {
      return Raises();
    }
    match tool.value
    case ControlLightTool => run := ControlLight(args, ha);
    case SetTimerTool => run := SetTimer(args, ha);
    case _ => run := ToolRunOf(tool.value, args, ha);
  }
}
