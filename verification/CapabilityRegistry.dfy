/** Which operation a method and a path select, and what every selected path looks like. */
module CapabilityRegistry {
  import opened Seqs
  import opened Routes

  /** The operation that was matched, and whether the platform is forced. */
  datatype Match = Match(operation: string, forced: bool)

  /** A verb and at least one fixed segment. */
  datatype Route = Route(verb: string, first: Word, more: seq<Word>, operation: string) {
    function Words(): seq<Word> {
      [first] + more
    }
  }

  // ---- Segments ----

  const ALPHA: Word := AsWord("alpha")
  const ANTIGRAVITY: Word := AsWord("antigravity")
  const ASYNC: Word := AsWord("async")
  const AUDIO: Word := AsWord("audio")
  const BACKEND_API: Word := AsWord("backend-api")
  const BATCHES: Word := AsWord("batches")
  const CALLS: Word := AsWord("calls")
  const CANCEL: Word := AsWord("cancel")
  const CHAT: Word := AsWord("chat")
  const CODEX: Word := AsWord("codex")
  const COMPACT: Word := AsWord("compact")
  const COMPLETIONS: Word := AsWord("completions")
  const CONTENT: Word := AsWord("content")
  const COUNT_TOKENS: Word := AsWord("count_tokens")
  const DOWNLOAD: Word := AsWord("download")
  const EDITS: Word := AsWord("edits")
  const EMBEDDINGS: Word := AsWord("embeddings")
  const EXTENSIONS: Word := AsWord("extensions")
  const GENERATIONS: Word := AsWord("generations")
  const IMAGES: Word := AsWord("images")
  const INPUT_ITEMS: Word := AsWord("input_items")
  const ITEMS: Word := AsWord("items")
  const LIVE: Word := AsWord("live")
  const MESSAGES: Word := AsWord("messages")
  const METRICS: Word := AsWord("metrics")
  const MODELS: Word := AsWord("models")
  const OUTPUTS: Word := AsWord("outputs")
  const READY: Word := AsWord("ready")
  const REALTIME: Word := AsWord("realtime")
  const RESPONSES: Word := AsWord("responses")
  const SEARCH: Word := AsWord("search")
  const SPEECH: Word := AsWord("speech")
  const TASKS: Word := AsWord("tasks")
  const TRANSCRIPTIONS: Word := AsWord("transcriptions")
  const USAGE: Word := AsWord("usage")
  const V1: Word := AsWord("v1")
  const V1BETA: Word := AsWord("v1beta")
  const VIDEOS: Word := AsWord("videos")

  // ---- String views ----

  /** What follows a prefix, if the string starts with it. */
  function After(s: string, prefix: string): Option<string> {
    if prefix <= s then Some(s[|prefix|..]) else None
  }

  /** What precedes a suffix, if the string ends with it. */
  function Before(s: string, suffix: string): Option<string> {
    if |suffix| <= |s| && s[|s| - |suffix|..] == suffix then Some(s[..|s| - |suffix|]) else None
  }

  /** What follows these segments and a slash. */
  function Under(path: string, words: seq<Word>): Option<string> {
    After(path, Path(words) + "/")
  }

  /** The position of a character, or the length when there is none. */
  function Find(s: string, c: char): (i: nat)
    ensures i <= |s| && (i < |s| ==> s[i] == c)
  {
    if s == "" || s[0] == c then 0 else 1 + Find(s[1..], c)
  }

  /** `substr` from a position on, for a wrapped length as well. */
  function Slice(s: string, from: nat, length: int): string
    requires from <= |s|
  {
    if length < 0 || from + length > |s| then s[from..] else s[from..from + length]
  }

  // ---- Tables ----

  function Lookup(table: seq<Route>, method_: string, relative: string): Option<string> {
    if table == [] then None
    else if table[0].verb == method_ && Path(table[0].Words()) == relative then Some(table[0].operation)
    else Lookup(table[1..], method_, relative)
  }

  const CHAT_ROUTES: seq<Route> :=
    [Route("POST", MESSAGES, [], "messages"),
     Route("POST", MESSAGES, [COUNT_TOKENS], "count_tokens"),
     Route("POST", CHAT, [COMPLETIONS], "chat_completions"),
     Route("POST", RESPONSES, [COMPACT], "responses_compact"),
     Route("POST", RESPONSES, [], "responses")]

  const SESSIONS_ROUTES: seq<Route> :=
    [Route("GET", RESPONSES, [], "responses_websocket"),
     Route("POST", LIVE, [], "live_create")]

  const MEDIA_ROUTES: seq<Route> :=
    [Route("POST", ALPHA, [SEARCH], "alpha_search"),
     Route("POST", AUDIO, [SPEECH], "audio_speech"),
     Route("POST", AUDIO, [TRANSCRIPTIONS], "audio_transcriptions"),
     Route("POST", EMBEDDINGS, [], "embeddings"),
     Route("POST", IMAGES, [GENERATIONS], "images_generations"),
     Route("POST", IMAGES, [EDITS], "images_edits"),
     Route("POST", IMAGES, [GENERATIONS, ASYNC], "images_generations_async"),
     Route("POST", IMAGES, [EDITS, ASYNC], "images_edits_async")]

  const BATCHES_ROUTES: seq<Route> :=
    [Route("POST", IMAGES, [BATCHES], "images_batch_create"),
     Route("GET", IMAGES, [BATCHES], "images_batch_list"),
     Route("GET", IMAGES, [BATCHES, MODELS], "images_batch_models")]

  const VIDEOS_ROUTES: seq<Route> :=
    [Route("POST", VIDEOS, [GENERATIONS], "videos_generations"),
     Route("POST", VIDEOS, [EDITS], "videos_edits"),
     Route("POST", VIDEOS, [EXTENSIONS], "videos_extensions")]

  /** What may follow a batch or a video, by its tail. */
  const BATCH_TAILS: seq<Route> :=
    [Route("GET", ITEMS, [], "images_batch_items"),
     Route("GET", DOWNLOAD, [], "images_batch_download"),
     Route("POST", CANCEL, [], "images_batch_cancel"),
     Route("DELETE", OUTPUTS, [], "images_batch_delete_outputs")]

  const VIDEO_TAILS: seq<Route> :=
    [Route("GET", CONTENT, [], "videos_content"),
     Route("POST", CANCEL, [], "videos_cancel"),
     Route("DELETE", OUTPUTS, [], "videos_delete_outputs")]

  function ChatRoute(method_: string, relative: string): Option<string> {
    Lookup(CHAT_ROUTES, method_, relative)
  }

  function SessionRoute(method_: string, relative: string): Option<string> {
    Lookup(SESSIONS_ROUTES, method_, relative)
  }

  function MediaRoute(method_: string, relative: string): Option<string> {
    Lookup(MEDIA_ROUTES, method_, relative)
  }

  function BatchesRoute(method_: string, relative: string): Option<string> {
    Lookup(BATCHES_ROUTES, method_, relative)
  }

  function VideosRoute(method_: string, relative: string): Option<string> {
    Lookup(VIDEOS_ROUTES, method_, relative)
  }

  // ---- Routes with an identifier ----

  function BatchAlone(method_: string): Option<string> {
    if method_ == "GET" then Some("images_batch_get")
    else if method_ == "DELETE" then Some("images_batch_delete")
    else None
  }

  /** The identifier between `items/` and `/content`; the length is a wrapping subtraction. */
  function CustomId(tail: string): Option<string> {
    if "items/" <= tail && Before(tail, "/content").Some? then Some(Slice(tail, 6, |tail| - 6 - 8)) else None
  }

  function FixedTail(method_: string, tail: string): Option<string> {
    Lookup(BATCH_TAILS, method_, Slash(tail))
  }

  function BatchTail(method_: string, tail: string): Option<string> {
    if FixedTail(method_, tail).Some? then FixedTail(method_, tail)
    else
      var id := CustomId(tail);
      if id.Some? && method_ == "GET" && Safe(id.value) then Some("images_batch_item_content") else None
  }

  function BatchPath(method_: string, relative: string): Option<string> {
    match Under(relative, [IMAGES, BATCHES])
    case None => None
    case Some(suffix) =>
      var slash := Find(suffix, '/');
      if !Safe(suffix[..slash]) then None
      else if slash == |suffix| then BatchAlone(method_)
      else BatchTail(method_, suffix[slash + 1..])
  }

  function VideoAlone(method_: string): Option<string> {
    if method_ == "GET" then Some("videos_get") else if method_ == "DELETE" then Some("videos_delete") else None
  }

  function VideoTail(method_: string, tail: string): Option<string> {
    Lookup(VIDEO_TAILS, method_, Slash(tail))
  }

  function VideoPath(method_: string, relative: string): Option<string> {
    match Under(relative, [VIDEOS])
    case None => None
    case Some(suffix) =>
      var slash := Find(suffix, '/');
      if !Safe(suffix[..slash]) then None
      else if slash == |suffix| then VideoAlone(method_)
      else VideoTail(method_, suffix[slash + 1..])
  }

  /** An identifier, then one fixed segment. */
  predicate IdThen(suffix: string, word: Word) {
    var id := Before(suffix, Slash(word));
    id.Some? && Safe(id.value)
  }

  function ResponsePath(method_: string, relative: string): Option<string> {
    match Under(relative, [RESPONSES])
    case None => None
    case Some(suffix) =>
      if method_ == "POST" && IdThen(suffix, CANCEL) then Some("responses_cancel")
      else if method_ == "GET" && IdThen(suffix, INPUT_ITEMS) then Some("responses_input_items")
      else if method_ == "GET" && Safe(suffix) then Some("responses_get")
      else if method_ == "DELETE" && Safe(suffix) then Some("responses_delete")
      else None
  }

  /** One identifier below fixed segments, for GET only. */
  function GetOne(method_: string, relative: string, words: seq<Word>, operation: string): Option<string> {
    match Under(relative, words)
    case None => None
    case Some(suffix) => if method_ == "GET" && Safe(suffix) then Some(operation) else None
  }

  // ---- The routers ----

  function Or<T>(a: Option<T>, b: Option<T>): Option<T> {
    if a.Some? then a else b
  }

  function ModelRoute(method_: string, relative: string, forced: bool): Option<string> {
    if method_ == "GET" && relative == Path([MODELS]) then Some(if forced then "antigravity_models" else "models")
    else None
  }

  function UsageRoute(method_: string, relative: string, forced: bool): Option<string> {
    if forced && method_ == "GET" && relative == Path([USAGE]) then Some("antigravity_usage") else None
  }

  function MediaRoutes(method_: string, relative: string, forced: bool): Option<string> {
    Or(MediaRoute(method_, relative),
    Or(GetOne(method_, relative, [IMAGES, TASKS], "images_task_get"),
    Or(BatchesRoute(method_, relative),
    Or(BatchPath(method_, relative),
    Or(VideosRoute(method_, relative),
    Or(VideoPath(method_, relative),
    Or(ModelRoute(method_, relative, forced), UsageRoute(method_, relative, forced))))))))
  }

  /** `route_openai` on the part behind the prefix: the first route that matches. */
  function RouteOpenAi(method_: string, relative: string, forced: bool): Option<string> {
    var chat := ChatRoute(method_, relative);
    if chat.Some? then chat
    else if relative == Path([RESPONSES, COMPACT]) then None
    else
      Or(ResponsePath(method_, relative),
      Or(SessionRoute(method_, relative),
      Or(GetOne(method_, relative, [LIVE], "live_sideband"), MediaRoutes(method_, relative, forced))))
  }

  predicate IsAction(action: string) {
    action == "generateContent" || action == "streamGenerateContent"
  }

  /** `route_gemini` on the part behind the prefix. */
  function RouteGemini(method_: string, relative: string): Option<string> {
    if relative == Path([MODELS]) && method_ == "GET" then Some("gemini_models_list")
    else
      match Under(relative, [MODELS])
      case None => None
      case Some(suffix) =>
        var colon := Find(suffix, ':');
        if !Safe(suffix[..colon]) then None
        else if colon == |suffix| then if method_ == "GET" then Some("gemini_models_get") else None
        else if method_ == "POST" && IsAction(suffix[colon + 1..]) then Some(suffix[colon + 1..])
        else None
  }

  function Behind(path: string, words: seq<Word>): Option<string> {
    After(path, Path(words))
  }

  function AsMatch(operation: Option<string>, forced: bool): Option<Match> {
    match operation
    case None => None
    case Some(o) => Some(Match(o, forced))
  }

  /** One segment that is not the name of a route. */
  predicate IsSideband(method_: string, relative: string) {
    var id := After(relative, "/");
    method_ == "GET" && id.Some? && Safe(id.value) && id.value != MODELS && id.value != RESPONSES
  }

  function Codex(method_: string, relative: string): Option<string> {
    if relative == Path([REALTIME, CALLS]) && method_ == "POST" then Some("codex_realtime_calls")
    else if IsSideband(method_, relative) then Some("codex_live_sideband")
    else RouteOpenAi(method_, relative, false)
  }

  predicate Operational(path: string) {
    path == Path([LIVE]) || path == Path([READY]) || path == Path([METRICS])
  }

  /** The routes under the forced platform; None when the path is not under it. */
  function MatchForced(method_: string, path: string): Option<Option<string>> {
    if Behind(path, [ANTIGRAVITY, V1BETA]).Some? then
      Some(RouteGemini(method_, Behind(path, [ANTIGRAVITY, V1BETA]).value))
    else if Behind(path, [ANTIGRAVITY, V1]).Some? then
      Some(RouteOpenAi(method_, Behind(path, [ANTIGRAVITY, V1]).value, true))
    else if path == Path([ANTIGRAVITY, MODELS]) && method_ == "GET" then Some(Some("antigravity_models"))
    else None
  }

  function MatchPlain(method_: string, path: string): Option<string> {
    if Behind(path, [V1BETA]).Some? then RouteGemini(method_, Behind(path, [V1BETA]).value)
    else if Behind(path, [BACKEND_API, CODEX]).Some? then Codex(method_, Behind(path, [BACKEND_API, CODEX]).value)
    else if Behind(path, [V1]).Some? then RouteOpenAi(method_, Behind(path, [V1]).value, false)
    else RouteOpenAi(method_, path, false)
  }

  /** `match_capability`. */
  function MatchCapability(method_: string, path: string): Option<Match> {
    if Operational(path) then None
    else if MatchForced(method_, path).Some? then AsMatch(MatchForced(method_, path).value, true)
    else AsMatch(MatchPlain(method_, path), false)
  }

  // ---- Every accepted path is safe ----

  lemma {:induction false} LookupIsSafe(table: seq<Route>, method_: string, relative: string)
    requires Lookup(table, method_, relative).Some?
    ensures SafePath(relative)
  {
    if table[0].verb == method_ && Path(table[0].Words()) == relative {
      WordsAreSafe(table[0].Words());
    } else {
      LookupIsSafe(table[1..], method_, relative);
    }
  }

  lemma UnderIs(path: string, words: seq<Word>)
    requires Under(path, words).Some?
    ensures path == Path(words) + Slash(Under(path, words).value)
  {
    var lead := Path(words) + "/";
    assert path == lead + path[|lead|..];
  }

  /** A safe rest below fixed segments. */
  lemma UnderRest(path: string, words: seq<Word>)
    requires Under(path, words).Some? && SafePath(Slash(Under(path, words).value))
    ensures SafePath(path)
  {
    UnderIs(path, words);
    UnderIsSafe(words, Slash(Under(path, words).value));
  }

  /** An identifier and a safe rest behind a slash. */
  lemma IdAndRest(suffix: string, at: nat)
    requires at < |suffix| && suffix[at] == '/' && Safe(suffix[..at]) && SafePath(Slash(suffix[at + 1..]))
    ensures SafePath(Slash(suffix))
  {
    StepIsSafe(suffix[..at], Slash(suffix[at + 1..]));
    assert Slash(suffix) == Slash(suffix[..at]) + Slash(suffix[at + 1..]);
  }

  lemma IdThenIsSafe(suffix: string, word: Word)
    requires IdThen(suffix, word)
    ensures SafePath(Slash(suffix))
  {
    var id := Before(suffix, Slash(word)).value;
    assert suffix[|id|..] == Slash(word);
    assert suffix[|id|] == '/' && suffix[|id| + 1..] == word;
    OneIsSafe(word);
    IdAndRest(suffix, |id|);
  }

  /** The identifier between `items/` and `/content`, also when the two share their slash. */
  lemma ContentIsSafe(tail: string)
    requires CustomId(tail).Some? && Safe(CustomId(tail).value)
    ensures SafePath(Slash(tail))
  {
    var id := CustomId(tail).value;
    assert tail[..6] == "items/" && tail[|tail| - 8..] == "/content";
    ItemsWord(tail);
    OneIsSafe(CONTENT);
    if |tail| < 14 {
      SharedSlash(tail);
      IdAndRest(tail, 5);
    } else {
      var rest := tail[6..];
      assert rest[..|id|] == id && rest[|id|..] == "/content";
      ContentWord(rest, |id|);
      IdAndRest(rest, |id|);
      IdAndRest(tail, 5);
    }
  }

  lemma ItemsWord(tail: string)
    requires |tail| >= 6 && tail[..6] == "items/"
    ensures tail[5] == '/' && tail[..5] == ITEMS
  {
    assert tail[..5] == tail[..6][..5];
    assert tail[5] == tail[..6][5];
  }

  lemma ContentWord(rest: string, k: nat)
    requires k <= |rest| && rest[k..] == "/content"
    ensures k < |rest| && rest[k] == '/' && rest[k + 1..] == CONTENT
  {
    assert rest[k + 1..] == rest[k..][1..];
    assert rest[k] == rest[k..][0];
  }

  /** Two overlapping affixes leave room for one slash only. */
  lemma SharedSlash(tail: string)
    requires 8 <= |tail| < 14 && tail[..6] == "items/" && tail[|tail| - 8..] == "/content"
    ensures tail[6..] == CONTENT
  {
    var k := |tail| - 8;
    assert tail[k] == tail[k..][0];
    assert tail[k] == tail[..6][k];
    assert k == 5;
    ContentWord(tail, 5);
  }

  lemma BatchIsSafe(method_: string, relative: string)
    requires BatchPath(method_, relative).Some?
    ensures SafePath(relative)
  {
    var suffix := Under(relative, [IMAGES, BATCHES]).value;
    var slash := Find(suffix, '/');
    if slash == |suffix| {
      assert suffix[..slash] == suffix;
      OneIsSafe(suffix);
    } else {
      var tail := suffix[slash + 1..];
      if FixedTail(method_, tail).Some? {
        LookupIsSafe(BATCH_TAILS, method_, Slash(tail));
      } else {
        ContentIsSafe(tail);
      }
      IdAndRest(suffix, slash);
    }
    UnderRest(relative, [IMAGES, BATCHES]);
  }

  lemma VideoTailIsSafe(method_: string, tail: string)
    requires VideoTail(method_, tail).Some?
    ensures SafePath(Slash(tail))
  {
    LookupIsSafe(VIDEO_TAILS, method_, Slash(tail));
  }

  lemma VideoIsSafe(method_: string, relative: string)
    requires VideoPath(method_, relative).Some?
    ensures SafePath(relative)
  {
    var suffix := Under(relative, [VIDEOS]).value;
    var slash := Find(suffix, '/');
    if slash == |suffix| {
      assert suffix[..slash] == suffix;
      OneIsSafe(suffix);
    } else {
      VideoTailIsSafe(method_, suffix[slash + 1..]);
      IdAndRest(suffix, slash);
    }
    UnderRest(relative, [VIDEOS]);
  }

  lemma ResponseIsSafe(method_: string, relative: string)
    requires ResponsePath(method_, relative).Some?
    ensures SafePath(relative)
  {
    var suffix := Under(relative, [RESPONSES]).value;
    if IdThen(suffix, CANCEL) {
      IdThenIsSafe(suffix, CANCEL);
    } else if IdThen(suffix, INPUT_ITEMS) {
      IdThenIsSafe(suffix, INPUT_ITEMS);
    } else {
      OneIsSafe(suffix);
    }
    UnderRest(relative, [RESPONSES]);
  }

  lemma GetOneIsSafe(method_: string, relative: string, words: seq<Word>, operation: string)
    requires GetOne(method_, relative, words, operation).Some?
    ensures SafePath(relative)
  {
    OneIsSafe(Under(relative, words).value);
    UnderRest(relative, words);
  }

  lemma OpenAiIsSafe(method_: string, relative: string, forced: bool)
    ensures RouteOpenAi(method_, relative, forced).Some? ==> SafePath(relative)
  {
    if ChatRoute(method_, relative).Some? {
      LookupIsSafe(CHAT_ROUTES, method_, relative);
    } else if ResponsePath(method_, relative).Some? {
      ResponseIsSafe(method_, relative);
    } else if SessionRoute(method_, relative).Some? {
      LookupIsSafe(SESSIONS_ROUTES, method_, relative);
    } else if GetOne(method_, relative, [LIVE], "live_sideband").Some? {
      GetOneIsSafe(method_, relative, [LIVE], "live_sideband");
    } else {
      MediaIsSafe(method_, relative, forced);
    }
  }

  lemma MediaIsSafe(method_: string, relative: string, forced: bool)
    ensures MediaRoutes(method_, relative, forced).Some? ==> SafePath(relative)
  {
    if MediaRoute(method_, relative).Some? {
      LookupIsSafe(MEDIA_ROUTES, method_, relative);
    } else if GetOne(method_, relative, [IMAGES, TASKS], "images_task_get").Some? {
      GetOneIsSafe(method_, relative, [IMAGES, TASKS], "images_task_get");
    } else if BatchesRoute(method_, relative).Some? {
      LookupIsSafe(BATCHES_ROUTES, method_, relative);
    } else if BatchPath(method_, relative).Some? {
      BatchIsSafe(method_, relative);
    } else if VideosRoute(method_, relative).Some? {
      LookupIsSafe(VIDEOS_ROUTES, method_, relative);
    } else if VideoPath(method_, relative).Some? {
      VideoIsSafe(method_, relative);
    } else {
      WordsAreSafe([MODELS]);
      WordsAreSafe([USAGE]);
    }
  }

  lemma ActionIsSafe(suffix: string, colon: nat)
    requires colon < |suffix| && suffix[colon] == ':' && Safe(suffix[..colon]) && IsAction(suffix[colon + 1..])
    ensures SafeLast(suffix)
  {
    ActionsAreSafe();
  }

  lemma ActionsAreSafe()
    ensures Safe("generateContent") && Safe("streamGenerateContent")
  {
    var _, _ := AsWord("generateContent"), AsWord("streamGenerateContent");
  }

  lemma GeminiIsSafe(method_: string, relative: string)
    ensures RouteGemini(method_, relative).Some? ==> SafePath(relative)
  {
    if relative == Path([MODELS]) && method_ == "GET" {
      WordsAreSafe([MODELS]);
    } else if RouteGemini(method_, relative).Some? {
      var suffix := Under(relative, [MODELS]).value;
      var colon := Find(suffix, ':');
      if colon == |suffix| {
        assert suffix[..colon] == suffix;
      } else {
        ActionIsSafe(suffix, colon);
      }
      OneIsSafe(suffix);
      UnderRest(relative, [MODELS]);
    }
  }

  lemma SidebandIsSafe(method_: string, relative: string)
    requires IsSideband(method_, relative)
    ensures SafePath(relative)
  {
    var id := After(relative, "/").value;
    assert relative == Slash(id);
    OneIsSafe(id);
  }

  lemma CodexIsSafe(method_: string, relative: string)
    ensures Codex(method_, relative).Some? ==> SafePath(relative)
  {
    if relative == Path([REALTIME, CALLS]) {
      WordsAreSafe([REALTIME, CALLS]);
    } else if IsSideband(method_, relative) {
      SidebandIsSafe(method_, relative);
    } else {
      OpenAiIsSafe(method_, relative, false);
    }
  }

  lemma BehindIsSafe(path: string, words: seq<Word>)
    requires Behind(path, words).Some? && SafePath(Behind(path, words).value)
    ensures SafePath(path)
  {
    UnderIsSafe(words, Behind(path, words).value);
    assert path == Path(words) + Behind(path, words).value;
  }

  /** A router that accepts safe paths only does so behind a prefix too. */
  lemma Prefixed(path: string, words: seq<Word>, accepted: bool)
    requires Behind(path, words).Some? && (accepted ==> SafePath(Behind(path, words).value))
    ensures accepted ==> SafePath(path)
  {
    if accepted {
      BehindIsSafe(path, words);
    }
  }

  lemma ForcedIsSafe(method_: string, path: string)
    ensures MatchForced(method_, path).Some? && MatchForced(method_, path).value.Some? ==> SafePath(path)
  {
    if Behind(path, [ANTIGRAVITY, V1BETA]).Some? {
      var relative := Behind(path, [ANTIGRAVITY, V1BETA]).value;
      GeminiIsSafe(method_, relative);
      Prefixed(path, [ANTIGRAVITY, V1BETA], RouteGemini(method_, relative).Some?);
    } else if Behind(path, [ANTIGRAVITY, V1]).Some? {
      var relative := Behind(path, [ANTIGRAVITY, V1]).value;
      OpenAiIsSafe(method_, relative, true);
      Prefixed(path, [ANTIGRAVITY, V1], RouteOpenAi(method_, relative, true).Some?);
    } else {
      WordsAreSafe([ANTIGRAVITY, MODELS]);
    }
  }

  lemma PlainIsSafe(method_: string, path: string)
    ensures MatchPlain(method_, path).Some? ==> SafePath(path)
  {
    if Behind(path, [V1BETA]).Some? {
      var relative := Behind(path, [V1BETA]).value;
      GeminiIsSafe(method_, relative);
      Prefixed(path, [V1BETA], RouteGemini(method_, relative).Some?);
    } else if Behind(path, [BACKEND_API, CODEX]).Some? {
      var relative := Behind(path, [BACKEND_API, CODEX]).value;
      CodexIsSafe(method_, relative);
      Prefixed(path, [BACKEND_API, CODEX], Codex(method_, relative).Some?);
    } else if Behind(path, [V1]).Some? {
      var relative := Behind(path, [V1]).value;
      OpenAiIsSafe(method_, relative, false);
      Prefixed(path, [V1], RouteOpenAi(method_, relative, false).Some?);
    } else {
      OpenAiIsSafe(method_, path, false);
    }
  }

  /** Every path that is accepted, for any method, splits into safe segments. */
  lemma AcceptedIsSafe(method_: string, path: string)
    ensures MatchCapability(method_, path).Some? ==> SafePath(path)
  {
    ForcedIsSafe(method_, path);
    PlainIsSafe(method_, path);
  }

  lemma {:induction false} FindBehind(s: string, c: char, rest: string)
    requires c !in s
    ensures Find(s + [c] + rest, c) == |s|
  {
    var all := s + [c] + rest;
    if s != "" {
      assert all[1..] == s[1..] + [c] + rest && all[0] == s[0];
      FindBehind(s[1..], c, rest);
    }
  }

  lemma {:induction false} LookupMisses(table: seq<Route>, method_: string, relative: string)
    requires forall i | 0 <= i < |table| :: Path(table[i].Words()) != relative
    ensures Lookup(table, method_, relative).None?
  {
    if table != [] {
      LookupMisses(table[1..], method_, relative);
    }
  }

  lemma NoFixedTail(method_: string, tail: string)
    requires |tail| > 8
    ensures FixedTail(method_, tail).None?
  {
    forall i | 0 <= i < |BATCH_TAILS| ensures Path(BATCH_TAILS[i].Words()) != Slash(tail) {
      var route := BATCH_TAILS[i];
      assert route.Words() == [route.first];
      PathOne(route.first);
    }
    LookupMisses(BATCH_TAILS, method_, Slash(tail));
  }

  lemma WrappedLength()
    ensures CustomId("items/content") == Some(CONTENT)
  {
    assert "items/content"[..6] == "items/" && "items/content"[5..] == "/content";
  }

  /** The wrapped length: below every batch, `items/content` is taken for an item named `content`. */
  lemma SharedSlashIsAccepted(id: string)
    requires Safe(id)
    ensures BatchPath("GET", Path([IMAGES, BATCHES]) + Slash(id) + "/items/content") == Some("images_batch_item_content")
  {
    var lead, tail := Path([IMAGES, BATCHES]), "items/content";
    var suffix := id + ['/'] + tail;
    var relative := lead + Slash(id) + "/items/content";
    assert relative == (lead + "/") + suffix;
    assert Under(relative, [IMAGES, BATCHES]) == Some(suffix);
    FindBehind(id, '/', tail);
    assert suffix[..|id|] == id && suffix[|id| + 1..] == tail;
    NoFixedTail("GET", tail);
    WrappedLength();
  }

  // ---- Query strings ----

  predicate Hex(c: char) {
    '0' <= c <= '9' || 'a' <= c <= 'f' || 'A' <= c <= 'F'
  }

  predicate Printable(c: char) {
    '!' <= c <= '~' && c != '#'
  }

  /** Printable characters and complete percent escapes. */
  predicate Escaped(s: string) {
    s == "" || (Printable(s[0])
                && if s[0] == '%' then |s| >= 3 && Hex(s[1]) && Hex(s[2]) && Escaped(s[3..]) else Escaped(s[1..]))
  }

  predicate SafeQuery(query: string) {
    query == "" || (|query| <= 4096 && query[0] == '?' && Escaped(query[1..]))
  }

  /** `is_safe_query_string`. */
  method IsSafeQueryString(query: string) returns (r: bool)
    ensures r <==> SafeQuery(query)
  {
    if query == "" {
      return true;
    }
    if |query| > 4096 || query[0] != '?' {
      return false;
    }
    var i := 1;
    while i < |query|
      invariant 1 <= i <= |query|
      invariant Escaped(query[1..]) <==> Escaped(query[i..])
    {
      var rest := query[i..];
      assert rest[1..] == query[i + 1..] && (|rest| >= 3 ==> rest[3..] == query[i + 3..]);
      if !Printable(query[i]) {
        return false;
      }
      if query[i] == '%' {
        if i + 2 >= |query| || !Hex(query[i + 1]) || !Hex(query[i + 2]) {
          return false;
        }
        i := i + 2;
      }
      i := i + 1;
    }
    r := true;
  }
}
