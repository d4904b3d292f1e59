/** The voice-command hook: a first-match keyword classifier over the lower-cased
    transcript, and the Idle/Listening state guarded by browser support. The
    speech engine itself is outside the model: its events are method calls. */
module VoiceControl {
  import opened Text
  import opened Toasts

  datatype Command = Search | Nearest | Favorites | Emergency | Help | Weather | Refresh | Unknown

  /** The command name handed to `onCommand`. */
  function CommandName(c: Command): string {
    match c
    case Search => "search"
    case Nearest => "nearest"
    case Favorites => "favorites"
    case Emergency => "emergency"
    case Help => "help"
    case Weather => "weather"
    case Refresh => "refresh"
    case Unknown => "unknown"
  }

  /** The `if` / `else if` chain of `onresult`, on an already lower-cased transcript. */
  function Classify(t: string): Command {
    if Contains(t, "find") || Contains(t, "search") then Search
    else if Contains(t, "nearest") || Contains(t, "closest") then Nearest
    else if Contains(t, "favorite") || Contains(t, "favourite") then Favorites
    else if Contains(t, "call") || Contains(t, "emergency") then Emergency
    else if Contains(t, "help") || Contains(t, "assist") then Help
    else if Contains(t, "weather") then Weather
    else if Contains(t, "refresh") || Contains(t, "update") then Refresh
    else Unknown
  }

  // ----- the same rules as an ordered table, evaluated first-match -----

  datatype Rule = Rule(keywords: seq<string>, command: Command)

  const Rules: seq<Rule> := [
    Rule(["find", "search"], Search),
    Rule(["nearest", "closest"], Nearest),
    Rule(["favorite", "favourite"], Favorites),
    Rule(["call", "emergency"], Emergency),
    Rule(["help", "assist"], Help),
    Rule(["weather"], Weather),
    Rule(["refresh", "update"], Refresh)
  ]

  /** The thirteen keywords, in rule order. */
  const AllKeywords: seq<string> := [
    "find", "search", "nearest", "closest", "favorite", "favourite", "call",
    "emergency", "help", "assist", "weather", "refresh", "update"
  ]

  predicate MentionsAny(t: string, keywords: seq<string>) {
    exists k :: 0 <= k < |keywords| && Contains(t, keywords[k])
  }

  /** First-match evaluation of the rules from position `i` on. */
  function FirstMatchFrom(i: nat, t: string): Command
    requires i <= |Rules|
    decreases |Rules| - i
  {
    if i == |Rules| then Unknown
    else if MentionsAny(t, Rules[i].keywords) then Rules[i].command
    else FirstMatchFrom(i + 1, t)
  }

  /** The position of a command's rule in the table (Unknown comes last). */
  function Rank(c: Command): nat {
    match c
    case Search => 0
    case Nearest => 1
    case Favorites => 2
    case Emergency => 3
    case Help => 4
    case Weather => 5
    case Refresh => 6
    case Unknown => 7
  }

  lemma MentionsPair(t: string, a: string, b: string)
    ensures MentionsAny(t, [a, b]) <==> Contains(t, a) || Contains(t, b)
  {
    if Contains(t, a) { assert [a, b][0] == a; }
    if Contains(t, b) { assert [a, b][1] == b; }
  }

  lemma MentionsOne(t: string, a: string)
    ensures MentionsAny(t, [a]) <==> Contains(t, a)
  {
    if Contains(t, a) { assert [a][0] == a; }
  }

  /** The classifier is the first-match evaluation of the rule table. */
  lemma ClassifyIsFirstMatch(t: string)
    ensures Classify(t) == FirstMatchFrom(0, t)
  {
    MentionsPair(t, "refresh", "update");
    assert FirstMatchFrom(6, t) == if Contains(t, "refresh") || Contains(t, "update") then Refresh else Unknown;
    MentionsOne(t, "weather");
    assert FirstMatchFrom(5, t) == if Contains(t, "weather") then Weather else FirstMatchFrom(6, t);
    MentionsPair(t, "help", "assist");
    assert FirstMatchFrom(4, t) == if Contains(t, "help") || Contains(t, "assist") then Help else FirstMatchFrom(5, t);
    MentionsPair(t, "call", "emergency");
    assert FirstMatchFrom(3, t) == if Contains(t, "call") || Contains(t, "emergency") then Emergency else FirstMatchFrom(4, t);
    MentionsPair(t, "favorite", "favourite");
    assert FirstMatchFrom(2, t) == if Contains(t, "favorite") || Contains(t, "favourite") then Favorites else FirstMatchFrom(3, t);
    MentionsPair(t, "nearest", "closest");
    assert FirstMatchFrom(1, t) == if Contains(t, "nearest") || Contains(t, "closest") then Nearest else FirstMatchFrom(2, t);
    MentionsPair(t, "find", "search");
  }

  /** A keyword of rule `i` forces a command of rule `i` or of an earlier rule. */
  lemma ClassifyPriority(t: string, i: nat, k: nat)
    requires i < |Rules| && k < |Rules[i].keywords|
    requires Contains(t, Rules[i].keywords[k])
    ensures Classify(t) != Unknown && Rank(Classify(t)) <= i
    ensures Rank(Classify(t)) == i ==> Classify(t) == Rules[i].command
  {
  }

  /** The result is Unknown exactly when none of the thirteen keywords occurs. */
  lemma ClassifyUnknownIff(t: string)
    ensures Classify(t) == Unknown <==>
      forall k :: 0 <= k < |AllKeywords| ==> !Contains(t, AllKeywords[k])
  {
    if Classify(t) == Unknown {
      forall k | 0 <= k < |AllKeywords| ensures !Contains(t, AllKeywords[k]) {
        assert AllKeywords[k] in Rules[0].keywords + Rules[1].keywords + Rules[2].keywords
          + Rules[3].keywords + Rules[4].keywords + Rules[5].keywords + Rules[6].keywords;
      }
    } else {
      var i := Rank(Classify(t));
      assert exists k :: 0 <= k < |AllKeywords| && Contains(t, AllKeywords[k]) by {
        if Contains(t, "find") { assert AllKeywords[0] == "find"; }
        else if Contains(t, "search") { assert AllKeywords[1] == "search"; }
        else if Contains(t, "nearest") { assert AllKeywords[2] == "nearest"; }
        else if Contains(t, "closest") { assert AllKeywords[3] == "closest"; }
        else if Contains(t, "favorite") { assert AllKeywords[4] == "favorite"; }
        else if Contains(t, "favourite") { assert AllKeywords[5] == "favourite"; }
        else if Contains(t, "call") { assert AllKeywords[6] == "call"; }
        else if Contains(t, "emergency") { assert AllKeywords[7] == "emergency"; }
        else if Contains(t, "help") { assert AllKeywords[8] == "help"; }
        else if Contains(t, "assist") { assert AllKeywords[9] == "assist"; }
        else if Contains(t, "weather") { assert AllKeywords[10] == "weather"; }
        else if Contains(t, "refresh") { assert AllKeywords[11] == "refresh"; }
        else { assert AllKeywords[12] == "update"; }
      }
    }
  }

  /** Matching runs on the lower-cased transcript: the case of the spoken words
      never changes the command. */
  lemma ClassifyIgnoresCase(s: string, t: string)
    requires SameUpToCase(s, t)
    ensures Classify(ToLower(s)) == Classify(ToLower(t))
  {
    SameUpToCaseLower(s, t);
  }

  /** "find the nearest weather" is a search: the first rule wins. */
  lemma FindNearestWeatherIsSearch()
    ensures Classify("find the nearest weather") == Search
  {
    ContainsAt("find the nearest weather", "find", 0);
  }

  /** "xyz totally unrelated" matches no rule. */
  lemma UnrelatedIsUnknown(t: string)
    requires t == "xyz totally unrelated"
    ensures Classify(t) == Unknown
  {
    UnrelatedLetters(t);
    LacksKeywordLetters(t);
  }

  lemma UnrelatedLetters(t: string)
    requires t == "xyz totally unrelated"
    ensures 'f' !in t && 's' !in t && 'c' !in t && 'm' !in t
    ensures 'h' !in t && 'w' !in t && 'p' !in t
  {
    UnrelatedLettersFscm(t);
    UnrelatedLettersHwp(t);
  }

  lemma UnrelatedLettersFscm(t: string)
    requires t == "xyz totally unrelated"
    ensures 'f' !in t && 's' !in t && 'c' !in t && 'm' !in t
  {
  }

  lemma UnrelatedLettersHwp(t: string)
    requires t == "xyz totally unrelated"
    ensures 'h' !in t && 'w' !in t && 'p' !in t
  {
  }

  /** Every keyword has one of the letters f, s, c, m, h, w, p. */
  lemma LacksKeywordLetters(t: string)
    requires 'f' !in t && 's' !in t && 'c' !in t && 'm' !in t
    requires 'h' !in t && 'w' !in t && 'p' !in t
    ensures Classify(t) == Unknown
  {
    LacksChar(t, "find", 0);
    LacksChar(t, "search", 0);
    LacksChar(t, "nearest", 5);
    LacksChar(t, "closest", 0);
    LacksChar(t, "favorite", 0);
    LacksChar(t, "favourite", 0);
    LacksChar(t, "call", 0);
    LacksChar(t, "emergency", 1);
    LacksChar(t, "help", 0);
    LacksChar(t, "assist", 1);
    LacksChar(t, "weather", 0);
    LacksChar(t, "refresh", 2);
    LacksChar(t, "update", 1);
  }

  lemma LacksChar(t: string, keyword: string, j: nat)
    requires j < |keyword| && keyword[j] !in t
    ensures !Contains(t, keyword)
  {
    if Contains(t, keyword) {
      ContainsChar(t, keyword, j);
    }
  }

  /** The notice raised for an unrecognised transcript quotes it verbatim. */
  function UnknownNotice(transcript: string): (n: Toast)
    ensures n.level == Error
    ensures Contains(n.message, "\"" + transcript + "\"")
  {
    var m := "Command not recognized: \"" + transcript + "\"";
    ContainsAt(m, "\"" + transcript + "\"", 24);
    Toast(Error, m)
  }

  /** The listening state of the hook and what it has reported so far. */
  class VoiceController {
    var isSupported: bool
    var isListening: bool
    /** Every `onCommand(command, transcript)` call, in order. */
    var commands: seq<(string, string)>
    var toasts: seq<Toast>

    /** Both flags start false. */
    constructor ()
      ensures !isSupported && !isListening && commands == [] && toasts == []
    {
      isSupported := false;
      isListening := false;
      commands := [];
      toasts := [];
    }

    /** The mount effect: record whether the browser offers speech recognition. */
    method DetectSupport(available: bool)
      modifies this
      ensures isSupported == available
      ensures isListening == old(isListening) && commands == old(commands) && toasts == old(toasts)
    {
      isSupported := available;
    }

    /** A recognition session runs exactly while both flags hold. */
    predicate SessionActive()
      reads this
    {
      isSupported && isListening
    }

    method StartListening()
      modifies this
      ensures old(isSupported) ==> isListening && toasts == old(toasts)
      ensures !old(isSupported) ==>
                isListening == old(isListening)
                && toasts == old(toasts) + [Toast(Error, "Voice control not supported in this browser")]
      ensures isSupported == old(isSupported) && commands == old(commands)
    {
      if !isSupported {
        toasts := toasts + [Toast(Error, "Voice control not supported in this browser")];
        return;
      }
      isListening := true;
    }

    method StopListening()
      modifies this`isListening
      ensures !isListening
    {
      isListening := false;
    }

    /** `onstart` of a running session. */
    method OnStart()
      requires SessionActive()
      modifies this`toasts
      ensures toasts == old(toasts) + [Toast(Info, "\U{1F3A4} Listening... Speak now")]
    {
      toasts := toasts + [Toast(Info, "\U{1F3A4} Listening... Speak now")];
    }

    /** `onresult`: exactly one `onCommand` call with the lower-cased transcript,
        and a notice when nothing matched. */
    method OnResult(raw: string)
      requires SessionActive()
      modifies this`commands, this`toasts
      ensures var t := ToLower(raw);
        commands == old(commands) + [(CommandName(Classify(t)), t)]
        && toasts == old(toasts) + (if Classify(t) == Unknown then [UnknownNotice(t)] else [])
    {
      var transcript := ToLower(raw);
      var command := Classify(transcript);
      commands := commands + [(CommandName(command), transcript)];
      if command == Unknown {
        toasts := toasts + [UnknownNotice(transcript)];
      }
    }

    /** `onerror`: a notice for the two known error kinds, then back to idle. */
    method OnError(error: string)
      requires SessionActive()
      modifies this`isListening, this`toasts
      ensures !isListening
      ensures toasts == old(toasts) + ErrorNotices(error)
    {
      toasts := toasts + ErrorNotices(error);
      isListening := false;
    }

    /** `onend`: back to idle. */
    method OnEnd()
      modifies this`isListening
      ensures !isListening
    {
      isListening := false;
    }
  }

  function ErrorNotices(error: string): (r: seq<Toast>)
    ensures |r| <= 1
    ensures error == "no-speech" ==> r == [Toast(Warning, "No speech detected. Try again.")]
    ensures error == "not-allowed" ==> r == [Toast(Error, "Microphone access denied. Please enable in settings.")]
    ensures error != "no-speech" && error != "not-allowed" ==> r == []
  {
    if error == "no-speech" then [Toast(Warning, "No speech detected. Try again.")]
    else if error == "not-allowed" then [Toast(Error, "Microphone access denied. Please enable in settings.")]
    else []
  }
}
