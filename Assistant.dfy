/**
 * The assistant panel: a keyword router that answers a chat message with one
 * of four kinds of canned reply, and the chat log it appends to.
 */
module Assistant {
  import opened Text

  /** The four kinds of reply. */
  datatype Topic = Guide | Quests | Advice | Other

  /** The message asks how to use the app: "how" together with "use" or "work". */
  predicate AsksHowTo(lower: string) {
    Contains(lower, "how") && (Contains(lower, "use") || Contains(lower, "work"))
  }

  /** The message mentions quests: "quest", "dungeon" or "task". */
  predicate MentionsQuests(lower: string) {
    Contains(lower, "quest") || Contains(lower, "dungeon") || Contains(lower, "task")
  }

  /** The message asks for advice: "life", "better", "improve" or "advice". */
  predicate AsksAdvice(lower: string) {
    Contains(lower, "life") || Contains(lower, "better") || Contains(lower, "improve")
    || Contains(lower, "advice")
  }

  /** The routing of `generateAIResponse`: the keyword tests run on the
      lowercased message, in this order, and the first that holds decides. */
  function Classify(msg: string): (t: Topic)
    ensures t == Guide <==> AsksHowTo(ToLower(msg))
    ensures t == Quests <==> !AsksHowTo(ToLower(msg)) && MentionsQuests(ToLower(msg))
    ensures t == Advice <==>
      !AsksHowTo(ToLower(msg)) && !MentionsQuests(ToLower(msg)) && AsksAdvice(ToLower(msg))
  {
    var lower := ToLower(msg);
    if AsksHowTo(lower) then Guide
    else if MentionsQuests(lower) then Quests
    else if AsksAdvice(lower) then Advice
    else Other
  }

  /** Routing does not depend on letter case. */
  lemma RoutingIgnoresCase(msg: string)
    ensures Classify(ToLower(msg)) == Classify(msg)
  {
    ToLowerIdempotent(msg);
  }

  /** Capitals in the message do not hide the keywords: a message with "HOW"
      and later "USE" in it gets the guide. */
  lemma ShoutedHowToGetsGuide(a: string, b: string, c: string)
    ensures Classify(a + "HOW" + b + "USE" + c) == Guide
  {
    LowerOfShout(a, b, c);
    HowThenUse(ToLower(a), ToLower(b), ToLower(c));
  }

  /** Lowering the message lowers the two capitalised keywords in place. */
  lemma LowerOfShout(a: string, b: string, c: string)
    ensures ToLower(a + "HOW" + b + "USE" + c) == ToLower(a) + "how" + ToLower(b) + "use" + ToLower(c)
  {
    ToLowerAppend(a + "HOW" + b + "USE", c);
    ToLowerAppend(a + "HOW" + b, "USE");
    ToLowerAppend(a + "HOW", b);
    ToLowerAppend(a, "HOW");
    assert ToLower("HOW") == "how" && ToLower("USE") == "use";
  }

  /** A lowercased text with "how" and later "use" asks how to use the app. */
  lemma HowThenUse(x: string, y: string, z: string)
    ensures AsksHowTo(x + "how" + y + "use" + z)
  {
    assert x + "how" + y + "use" + z == x + "how" + (y + "use" + z);
    ContainsMiddle(x, "how", y + "use" + z);
    ContainsMiddle(x + "how" + y, "use", z);
  }

  /** A how-to question wins over every other keyword it contains, and quest
      keywords win over advice keywords. */
  lemma RoutingPriority(msg: string)
    ensures AsksHowTo(ToLower(msg)) ==> Classify(msg) == Guide
    ensures !AsksHowTo(ToLower(msg)) && MentionsQuests(ToLower(msg)) ==> Classify(msg) == Quests
    ensures Classify(msg) == Other <==>
      !AsksHowTo(ToLower(msg)) && !MentionsQuests(ToLower(msg)) && !AsksAdvice(ToLower(msg))
  {
  }

  /** The texts the assistant answers with: the usage guide, the two tables a
      random entry is drawn from with the text around each, the text around
      the quoted message of the default reply, and the greeting. */
  datatype Script = Script(
    guide: string,
    quests: seq<string>, questHeader: string, questFooter: string,
    advice: seq<string>, adviceHeader: string, adviceFooter: string,
    defaultHeader: string, defaultFooter: string,
    welcome: string)

  /** Both tables have an entry to draw. */
  predicate Stocked(script: Script) {
    |script.quests| > 0 && |script.advice| > 0
  }

  /** The usage guide. */
  const GuideText: string :=
    "\U{1F3AE} **Hunter System Guide**\n\n**Creating Dungeons (Tasks):**\n\U{2022} Click \"CREATE DUNGEON\" to add new quests\n\U{2022} Choose difficulty rank (E to S-Rank)\n\U{2022} Set estimated time and XP rewards\n\U{2022} Add subtasks for complex dungeons\n\n**Progress Tracking:**\n\U{2022} Manual progress: Use +25%/-25% buttons\n\U{2022} Subtask progress: Automatically calculated\n\U{2022} Time tracking: Log hours spent on quests\n\n**Leveling Up:**\n\U{2022} Complete dungeons to gain XP\n\U{2022} Higher difficulty = more XP rewards\n\U{2022} Maintain daily streaks for bonus rewards\n\U{2022} Reach new hunter ranks as you level up!"

  /** The quest suggestions, one of which is picked at random. */
  const QuestSuggestions: seq<string> := [
    "\U{1F4DA} **Learning Dungeons:**\n\U{2022} Complete online course (B-Rank)\n\U{2022} Read 1 book this month (A-Rank)\n\U{2022} Learn new programming language (S-Rank)",
    "\U{1F4AA} **Fitness Dungeons:**\n\U{2022} 30-day workout challenge (A-Rank)\n\U{2022} Run 5km daily for a week (B-Rank)\n\U{2022} Master a new yoga pose (C-Rank)",
    "\U{1F3A8} **Creative Dungeons:**\n\U{2022} Write a short story (B-Rank)\n\U{2022} Learn to play a song (A-Rank)\n\U{2022} Complete art project (C-Rank)",
    "\U{1F3E0} **Life Skills Dungeons:**\n\U{2022} Organize entire room (C-Rank)\n\U{2022} Learn to cook new recipe (D-Rank)\n\U{2022} Fix something broken (B-Rank)"
  ]

  const QuestHeader: string := "\U{2694}\U{FE0F} **Quest Suggestions for Your Hunter Journey**\n\n"
  const QuestFooter: string :=
    "\n\n\U{1F4A1} **Pro Tip:** Start with lower rank dungeons to build momentum, then challenge yourself with S-Rank quests!"

  /** The pieces of advice, one of which is picked at random. */
  const LifeAdvice: seq<string> := [
    "\U{1F331} **Growth Mindset:** Every failure is XP gained. Each setback teaches valuable lessons that make you stronger for the next challenge.",
    "\U{26A1} **Consistency Over Intensity:** Small daily actions compound into extraordinary results. Better to do 15 minutes daily than 3 hours once a week.",
    "\U{1F3AF} **Focus on Systems:** Don\'t just set goals, build systems. Good systems create lasting habits that automatically drive you toward success.",
    "\U{1F91D} **Build Your Guild:** Surround yourself with people who challenge and support you. Even solo hunters need allies.",
    "\U{1F9D8} **Rest is Part of Training:** Recovery isn\'t laziness\U{2014}it\'s preparation. Your mind and body need downtime to perform at S-Rank level."
  ]

  const AdviceHeader: string := "\U{2728} **Wisdom from the Hunter\'s Path**\n\n"
  const AdviceFooter: string :=
    "\n\n\U{1F3C6} Remember: Becoming S-Rank in life isn\'t about perfection\U{2014}it\'s about persistent growth and embracing the journey!"

  /** The default reply quotes the message between these two texts. */
  const DefaultHeader: string :=
    "\U{1F916} **System Processing...**\n\nI understand you\'re asking about: \""
  const DefaultFooter: string :=
    "\"\n\nAs your Hunter System AI, I can help you with:\n\n\U{1F3AE} **Webapp Usage** - How to navigate and use features\n\U{2694}\U{FE0F} **Quest Planning** - Suggestions for meaningful challenges\n\U{1F31F} **Personal Growth** - Life advice and motivation\n\U{1F4CA} **Progress Optimization** - Tips to level up faster\n\nCould you be more specific about what area you\'d like guidance on?"

  /** The greeting the log starts with. */
  const Welcome: string :=
    "\U{1F31F} **Hunter System AI Assistant** \U{1F31F}\n\nGreetings, Hunter! I\'m here to help you on your journey to S-Rank. Ask me about:\n\n\U{2728} How to use this webapp effectively\n\U{2694}\U{FE0F} Quest suggestions to level up\n\U{1F3AF} Life advice to become your best self\n\U{1F3C6} Strategies to maximize your progress\n\nWhat would you like to know?"

  /** The texts of the Hunter System assistant. */
  const HunterScript: Script := Script(
    GuideText,
    QuestSuggestions, QuestHeader, QuestFooter,
    LifeAdvice, AdviceHeader, AdviceFooter,
    DefaultHeader, DefaultFooter,
    Welcome)

  /** The app's texts offer four quest suggestions and five pieces of advice. */
  lemma HunterScriptStocked()
    ensures Stocked(HunterScript)
    ensures |HunterScript.quests| == 4 && |HunterScript.advice| == 5
  {
  }

  /** `Math.floor(Math.random() * length)`, with the value of `Math.random()`
      given as `roll`: an index into a table of `length` entries. */
  function PickIndex(roll: real, length: nat): (i: nat)
    requires 0.0 <= roll < 1.0 && length > 0
    ensures i < length
  {
    assert roll * length as real < length as real;
    (roll * length as real).Floor
  }

  /** `generateAIResponse`, with the value of `Math.random()` given as `roll`:
      the guide; a quest suggestion or a piece of advice inside its fixed
      wrapper; or the default reply, which quotes the message verbatim. */
  function Reply(script: Script, msg: string, roll: real): (r: string)
    requires Stocked(script) && 0.0 <= roll < 1.0
    ensures Classify(msg) == Guide ==> r == script.guide
    ensures Classify(msg) == Quests ==>
      exists i :: 0 <= i < |script.quests| && r == script.questHeader + script.quests[i] + script.questFooter
    ensures Classify(msg) == Advice ==>
      exists i :: 0 <= i < |script.advice| && r == script.adviceHeader + script.advice[i] + script.adviceFooter
    ensures Classify(msg) == Other ==> StartsWith(r, script.defaultHeader) && Contains(r, msg)
  {
    match Classify(msg)
    case Guide => script.guide
    case Quests =>
      script.questHeader + script.quests[PickIndex(roll, |script.quests|)] + script.questFooter
    case Advice =>
      script.adviceHeader + script.advice[PickIndex(roll, |script.advice|)] + script.adviceFooter
    case Other =>
      var r := script.defaultHeader + msg + script.defaultFooter;
      ContainsMiddle(script.defaultHeader, msg, script.defaultFooter);
      assert r[..|script.defaultHeader|] == script.defaultHeader;
      r
  }

  /** Every quest suggestion, and every piece of advice, is some roll's answer
      to a message of its topic. */
  lemma EveryEntryReachable(script: Script, msg: string, i: nat)
    requires Stocked(script)
    requires Classify(msg) == Quests ==> i < |script.quests|
    requires Classify(msg) == Advice ==> i < |script.advice|
    ensures Classify(msg) == Quests ==>
      Reply(script, msg, i as real / |script.quests| as real)
        == script.questHeader + script.quests[i] + script.questFooter
    ensures Classify(msg) == Advice ==>
      Reply(script, msg, i as real / |script.advice| as real)
        == script.adviceHeader + script.advice[i] + script.adviceFooter
  {
    if Classify(msg) == Quests {
      RollForIndex(i, |script.quests|);
    } else if Classify(msg) == Advice {
      RollForIndex(i, |script.advice|);
    }
  }

  /** The roll `i / n` picks entry `i` of a table of `n`. */
  lemma RollForIndex(i: nat, n: nat)
    requires i < n
    ensures 0.0 <= i as real / n as real < 1.0
    ensures PickIndex(i as real / n as real, n) == i
  {
    var roll := i as real / n as real;
    assert roll * n as real == i as real;
    assert roll < 1.0 by {
      assert roll * n as real < n as real;
    }
  }

  /** Who wrote a log entry. */
  datatype Sender = User | System

  datatype Message = Message(id: string, sender: Sender, content: string, timestamp: int)

  /** The chat panel's state: the log, the text box and the busy flag, with
      the texts the assistant answers from. */
  class Chat {
    const script: Script
    var messages: seq<Message>
    var input: string
    var isLoading: bool

    /** The log holds the greeting; the box is empty; nothing is pending. */
    constructor (script: Script, now: int)
      requires Stocked(script)
      ensures this.script == script
      ensures messages == [Message("1", System, script.welcome, now)]
      ensures input == [] && !isLoading
    {
      this.script := script;
      messages := [Message("1", System, script.welcome, now)];
      input := [];
      isLoading := false;
    }

    /** Typing in the box, or pressing one of the prompt buttons. */
    method SetInput(text: string)
      modifies this
      ensures input == text && messages == old(messages) && isLoading == old(isLoading)
    {
      input := text;
    }

    /** `handleSendMessage`: a blank box does nothing; otherwise the box's text
        and then the reply to it are appended, the box is cleared and the busy
        flag is off again. The ids, the clock and `Math.random()` are given. */
    method SendMessage(userId: string, replyId: string, now: int, roll: real)
      requires Stocked(script) && 0.0 <= roll < 1.0
      modifies this
      ensures IsBlank(old(input)) ==>
        messages == old(messages) && input == old(input) && isLoading == old(isLoading)
      ensures !IsBlank(old(input)) ==>
        && messages == old(messages) + [Message(userId, User, old(input), now),
                                        Message(replyId, System, Reply(script, old(input), roll), now)]
        && input == [] && !isLoading
    {
      // `input.trim()` is falsy exactly when the box is blank (TrimEmptyIffBlank).
      if !IsBlank(input) {
        var text := input;
        messages := messages + [Message(userId, User, text, now)];
        input := [];
        isLoading := true;
        var response := Reply(script, text, roll);
        isLoading := false;
        messages := messages + [Message(replyId, System, response, now)];
      }
    }
  }
}
