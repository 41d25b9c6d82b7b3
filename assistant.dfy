/** The conversation orchestrator: a small state machine over the current
    conversation id, the in-memory history and the assistant settings, driving the
    configuration manager, the LLM client and the conversation store. */
module Assistant {
  import opened Wrappers
  import opened Types
  import opened Json
  import opened Config
  import opened Llm
  import Store

  datatype State = Idle | Processing | Error

  function StateName(s: State): (r: string)
    ensures |r| > 0
  {
    match s
    case Idle => "IDLE"
    case Processing => "PROCESSING"
    case Error => "ERROR"
  }

  datatype EventKind = StateChanged | ResponseGenerated | ErrorOccurred

  /** What the registered event callback receives. */
  datatype Event = Event(kind: EventKind, data: string)

  datatype AssistantConfig = AssistantConfig(autoSave: bool, responseTimeout: real, maxHistory: int)

  /** The settings the constructor installs. */
  function DefaultAssistantConfig(): (c: AssistantConfig)
    ensures c.autoSave && c.maxHistory == 20 && c.responseTimeout == 30.0
  {
    AssistantConfig(true, 30.0, 20)
  }

  const NotReadyReply := "Sorry, I'm not ready to process your request."
  const NoClientReply := "I'm sorry, I'm not able to process your request right now."
  const FailedReply := "I'm sorry, I encountered an error while processing your request."

  function Min(a: int, b: int): int
  {
    if a < b then a else b
  }

  // ---------------------------------------------------------------------------
  // Conversation titles

  /** The characters std::regex's \s matches in the classic locale. */
  const RegexSpace: set<char> := {' ', '\t', '\n', '\U{0B}', '\U{0C}', '\r'}

  /** Longer than 50 characters: the first 47 and "...". */
  function Shortened(s: string): (r: string)
    ensures |r| <= 50 || r == s
    ensures |s| > 50 ==> r == s[..47] + "..."
    ensures |s| <= 50 ==> r == s
  {
    if |s| > 50 then s[..47] + "..." else s
  }

  /** Every '\n' and '\r' replaced by a space. */
  function Unbroken(s: string): (r: string)
    ensures |r| == |s|
    ensures forall i :: 0 <= i < |s| ==> r[i] == (if s[i] == '\n' || s[i] == '\r' then ' ' else s[i])
  {
    seq(|s|, i requires 0 <= i < |s| => if s[i] == '\n' || s[i] == '\r' then ' ' else s[i])
  }

  /** The text after the leading run of \s characters. */
  function SkipSpaces(s: string): (r: string)
    ensures |r| <= |s| && r == s[|s| - |r|..]
    ensures r == [] || r[0] !in RegexSpace
    ensures forall i :: 0 <= i < |s| - |r| ==> s[i] in RegexSpace
  {
    if s == [] || s[0] !in RegexSpace then s
    else
      var r := SkipSpaces(s[1..]);
      assert s[1..][|s| - 1 - |r|..] == s[|s| - |r|..];
      r
  }

  /** regex_replace(s, \s+, " "): every maximal run of \s becomes one space. */
  function Collapse(s: string): (r: string)
    ensures |r| <= |s|
    ensures r == [] <==> s == []
    ensures r != [] ==> (r[0] in RegexSpace <==> s[0] in RegexSpace)
    ensures forall i :: 0 <= i < |r| ==> r[i] in RegexSpace ==> r[i] == ' '
    ensures forall i :: 0 <= i < |r| - 1 ==> !(r[i] in RegexSpace && r[i + 1] in RegexSpace)
    decreases |s|
  {
    if s == [] then []
    else if s[0] in RegexSpace then
      var rest := Collapse(SkipSpaces(s[1..]));
      ConsSpaced(' ', rest);
      [' '] + rest
    else
      var rest := Collapse(s[1..]);
      ConsSpaced(s[0], rest);
      [s[0]] + rest
  }

  /** One character before a single-spaced text keeps it single-spaced when it is
      not white space, or is a space followed by a character that is not. */
  lemma ConsSpaced(c: char, rest: string)
    requires forall i :: 0 <= i < |rest| ==> rest[i] in RegexSpace ==> rest[i] == ' '
    requires forall i :: 0 <= i < |rest| - 1 ==> !(rest[i] in RegexSpace && rest[i + 1] in RegexSpace)
    requires c in RegexSpace ==> c == ' ' && (rest == [] || rest[0] !in RegexSpace)
    ensures forall i :: 0 <= i < |rest| + 1 ==> ([c] + rest)[i] in RegexSpace ==> ([c] + rest)[i] == ' '
    ensures forall i :: 0 <= i < |rest| ==> !(([c] + rest)[i] in RegexSpace && ([c] + rest)[i + 1] in RegexSpace)
  {
    var r := [c] + rest;
    forall i | 0 < i < |r| ensures r[i] == rest[i - 1] {
    }
  }

  /** The characters of s that are not \s, in order. */
  function NonSpace(s: string): (r: string)
    ensures |r| <= |s|
    decreases |s|
  {
    if s == [] then [] else (if s[0] in RegexSpace then [] else [s[0]]) + NonSpace(s[1..])
  }

  lemma {:induction false} NonSpaceOfSkip(s: string)
    ensures NonSpace(SkipSpaces(s)) == NonSpace(s)
    decreases |s|
  {
    if s != [] && s[0] in RegexSpace {
      NonSpaceOfSkip(s[1..]);
    }
  }

  /** Collapsing runs of white space keeps every other character, in order. */
  lemma {:induction false} CollapseKeepsText(s: string)
    ensures NonSpace(Collapse(s)) == NonSpace(s)
    decreases |s|
  {
    if s != [] {
      var r := Collapse(s);
      if s[0] in RegexSpace {
        CollapseKeepsText(SkipSpaces(s[1..]));
        NonSpaceOfSkip(s[1..]);
        assert r == [' '] + Collapse(SkipSpaces(s[1..]));
        assert r[1..] == Collapse(SkipSpaces(s[1..]));
      } else {
        CollapseKeepsText(s[1..]);
        assert r[1..] == Collapse(s[1..]);
      }
    }
  }

  lemma {:induction false} UnbrokenKeepsText(s: string)
    ensures NonSpace(Unbroken(s)) == NonSpace(s)
    decreases |s|
  {
    if s != [] {
      UnbrokenKeepsText(s[1..]);
      assert Unbroken(s)[1..] == Unbroken(s[1..]);
    }
  }

  /** generateConversationTitle. */
  function GenerateConversationTitle(s: string): (r: string)
    ensures |r| <= 50
    ensures '\n' !in r && '\r' !in r
    ensures forall i :: 0 <= i < |r| ==> r[i] in RegexSpace ==> r[i] == ' '
    ensures forall i :: 0 <= i < |r| - 1 ==> !(r[i] in RegexSpace && r[i + 1] in RegexSpace)
    ensures s == [] ==> r == "New Conversation"
    ensures s != [] ==> NonSpace(r) == NonSpace(Shortened(s))
  {
    var t := Collapse(Unbroken(Shortened(s)));
    assert '\n' !in t && '\r' !in t by {
      forall i | 0 <= i < |t| ensures t[i] != '\n' && t[i] != '\r' {
        assert t[i] in RegexSpace ==> t[i] == ' ';
      }
    }
    CollapseKeepsText(Unbroken(Shortened(s)));
    UnbrokenKeepsText(Shortened(s));
    if t == [] then "New Conversation" else t
  }

  /** A short title without white space is kept as it is. */
  lemma PlainTitleKept(s: string)
    requires 0 < |s| <= 50 && forall i :: 0 <= i < |s| ==> s[i] !in RegexSpace
    ensures GenerateConversationTitle(s) == s
  {
    CollapsePlain(s);
    assert Unbroken(s) == s;
  }

  lemma {:induction false} CollapsePlain(s: string)
    requires forall i :: 0 <= i < |s| ==> s[i] !in RegexSpace
    ensures Collapse(s) == s
    decreases |s|
  {
    if s != [] {
      CollapsePlain(s[1..]);
    }
  }

  /** Skipping a run of white space that ends where y's first non-space begins
      leaves exactly y. */
  lemma {:induction false} SkipRun(w: string, y: string)
    requires forall i :: 0 <= i < |w| ==> w[i] in RegexSpace
    requires y == [] || y[0] !in RegexSpace
    ensures SkipSpaces(w + y) == y
    decreases |w|
  {
    if w != [] {
      assert (w + y)[1..] == w[1..] + y;
      SkipRun(w[1..], y);
    }
  }

  /** Skipping white space from a text that holds a non-space character never
      reaches what follows it. */
  lemma {:induction false} SkipAppend(u: string, z: string)
    requires exists i :: 0 <= i < |u| && u[i] !in RegexSpace
    ensures SkipSpaces(u + z) == SkipSpaces(u) + z
    decreases |u|
  {
    if u[0] in RegexSpace {
      assert (u + z)[1..] == u[1..] + z;
      var i :| 0 <= i < |u| && u[i] !in RegexSpace;
      assert u[1..][i - 1] !in RegexSpace;
      SkipAppend(u[1..], z);
    } else {
      assert (u + z)[0] !in RegexSpace;
    }
  }

  /** A non-empty run of white space before a non-space (or the end) becomes
      exactly one space. */
  lemma CollapseRun(w: string, y: string)
    requires w != [] && forall i :: 0 <= i < |w| ==> w[i] in RegexSpace
    requires y == [] || y[0] !in RegexSpace
    ensures Collapse(w + y) == [' '] + Collapse(y)
  {
    assert (w + y)[0] == w[0] && (w + y)[1..] == w[1..] + y;
    SkipRun(w[1..], y);
  }

  /** Collapsing works piecewise across a cut after a non-space character, so
      CollapseRun and CollapsePlain together fix Collapse on every input. */
  lemma {:induction false} CollapseConcat(x: string, z: string)
    requires x == [] || x[|x| - 1] !in RegexSpace
    ensures Collapse(x + z) == Collapse(x) + Collapse(z)
    decreases |x|
  {
    if x == [] {
      assert x + z == z;
    } else {
      var u := x[1..];
      ConsTail(x, z);
      if x[0] in RegexSpace {
        assert u[|u| - 1] == x[|x| - 1];
        var v := SkipSpaces(u);
        SkipAppend(u, z);
        SkipKeepsLast(u, v);
        CollapseConcat(v, z);
        CollapseSpaceHead(x + z, u + z);
        CollapseSpaceHead(x, u);
        ConcatAssoc([' '], Collapse(v), Collapse(z));
      } else {
        assert u == [] || u[|u| - 1] == x[|x| - 1];
        CollapseConcat(u, z);
        CollapseCharHead(x + z, u + z);
        CollapseCharHead(x, u);
        ConcatAssoc([x[0]], Collapse(u), Collapse(z));
      }
    }
  }

  lemma ConsTail(x: string, z: string)
    requires x != []
    ensures x + z != [] && (x + z)[0] == x[0] && (x + z)[1..] == x[1..] + z
  {}


  /** Skipping white space keeps a final non-space character. */
  lemma {:induction false} SkipKeepsLast(u: string, v: string)
    requires u != [] && u[|u| - 1] !in RegexSpace && v == SkipSpaces(u)
    ensures v != [] && v[|v| - 1] == u[|u| - 1]
    decreases |u|
  {
    if u[0] in RegexSpace {
      assert u[1..][|u| - 2] == u[|u| - 1];
      SkipKeepsLast(u[1..], v);
    }
  }

  lemma CollapseSpaceHead(s: string, t: string)
    requires s != [] && s[0] in RegexSpace && t == s[1..]
    ensures Collapse(s) == [' '] + Collapse(SkipSpaces(t))
  {}

  lemma CollapseCharHead(s: string, t: string)
    requires s != [] && s[0] !in RegexSpace && t == s[1..]
    ensures Collapse(s) == [s[0]] + Collapse(t)
  {}

  /** A run of white space between two texts becomes exactly one space. */
  lemma CollapseGap(x: string, w: string, y: string)
    requires x == [] || x[|x| - 1] !in RegexSpace
    requires w != [] && forall i :: 0 <= i < |w| ==> w[i] in RegexSpace
    requires y == [] || y[0] !in RegexSpace
    ensures Collapse(x + w + y) == Collapse(x) + [' '] + Collapse(y)
  {
    var p, q, k := Collapse(x), Collapse(y), Collapse(w + y);
    CollapseRun(w, y);
    assert k == [' '] + q;
    CollapseConcat(x, w + y);
    ConcatAssoc(x, w, y);
    ConcatAssoc(p, [' '], q);
  }

  lemma ConcatAssoc(x: string, w: string, y: string)
    ensures x + w + y == x + (w + y)
  {}

  /** Two words of a short title around a run of white space, line breaks
      included: the run becomes exactly one space. */
  lemma TitleOneGap(x: string, w: string, y: string)
    requires x != [] && forall i :: 0 <= i < |x| ==> x[i] !in RegexSpace
    requires w != [] && forall i :: 0 <= i < |w| ==> w[i] in RegexSpace
    requires forall i :: 0 <= i < |y| ==> y[i] !in RegexSpace
    requires |x| + |w| + |y| <= 50
    ensures GenerateConversationTitle(x + w + y) == x + [' '] + y
  {
    var s := x + w + y;
    assert Shortened(s) == s;
    var w' := Unbroken(w);
    UnbrokenSplit(x, w, y);
    UnbrokenPlain(x);
    UnbrokenPlain(y);
    assert forall i :: 0 <= i < |w'| ==> w'[i] in RegexSpace;
    CollapseGap(x, w', y);
    CollapsePlain(x);
    CollapsePlain(y);
  }

  /** A long title whose first 47 characters hold no white space: those 47 and "...". */
  lemma LongPlainTitle(s: string)
    requires |s| > 50 && forall i :: 0 <= i < 47 ==> s[i] !in RegexSpace
    ensures GenerateConversationTitle(s) == s[..47] + "..."
  {
    var t := s[..47] + "...";
    assert forall i :: 0 <= i < |t| ==> t[i] !in RegexSpace by {
      forall i | 0 <= i < |t| ensures t[i] !in RegexSpace {
        if i < 47 { assert t[i] == s[i]; }
      }
    }
    UnbrokenPlain(t);
    CollapsePlain(t);
  }

  lemma UnbrokenPlain(x: string)
    requires forall i :: 0 <= i < |x| ==> x[i] !in RegexSpace
    ensures Unbroken(x) == x
  {}

  lemma UnbrokenSplit(x: string, w: string, y: string)
    ensures Unbroken(x + w + y) == Unbroken(x) + Unbroken(w) + Unbroken(y)
  {
    var s := x + w + y;
    var r := Unbroken(x) + Unbroken(w) + Unbroken(y);
    forall i | 0 <= i < |s| ensures Unbroken(s)[i] == r[i] {
      if i < |x| {
        assert s[i] == x[i];
      } else if i < |x| + |w| {
        assert s[i] == w[i - |x|];
      } else {
        assert s[i] == y[i - |x| - |w|];
      }
    }
  }




  // ---------------------------------------------------------------------------
  // The request and the template prompt

  /** The last `limit` history entries (all of them when fewer, none when the
      limit is not positive). */
  function Window(h: seq<Message>, limit: int): (w: seq<Message>)
    ensures limit <= 0 ==> w == []
    ensures limit > 0 ==> |w| == Min(limit, |h|)
    ensures w == h[|h| - |w|..]
  {
    var n := Min(limit, |h|);
    if n > 0 then h[|h| - n..] else []
  }

  /** The messages generateResponse hands to the client: the system prompt when
      set, the history window, then the user's input. */
  function RequestMessages(system: string, h: seq<Message>, limit: int, input: string): seq<Message>
  {
    SystemPart(system) + Window(h, limit) + [NewMessage("user", input)]
  }

  function SystemPart(system: string): (r: seq<Message>)
    ensures |r| <= 1
  {
    if system == "" then [] else [NewMessage("system", system)]
  }

  /** The request shape: at most limit + 2 messages, the system prompt first when
      it is set, then the history window, and the user's input last. */
  lemma RequestShape(system: string, h: seq<Message>, limit: int, input: string)
    ensures var r := RequestMessages(system, h, limit, input);
            && |r| >= 1 && r[|r| - 1] == NewMessage("user", input)
            && (limit >= 0 ==> |r| <= limit + 2)
            && (system != "" ==> r[0] == NewMessage("system", system) && r[1..|r| - 1] == Window(h, limit))
            && (system == "" ==> r[..|r| - 1] == Window(h, limit))
  {
    var r := RequestMessages(system, h, limit, input);
    var w := Window(h, limit);
    if system != "" {
      assert r == [NewMessage("system", system)] + w + [NewMessage("user", input)];
      assert r[1..|r| - 1] == w;
    } else {
      assert r == w + [NewMessage("user", input)];
      assert r[..|r| - 1] == w;
    }
  }

  /** The reply generateResponse gives for an LLM result. */
  function ReplyText(r: LLMResponse): (t: string)
    ensures r.success ==> t == r.content
    ensures !r.success ==> t == FailedReply
  {
    if r.success then r.content else FailedReply
  }

  /** One "role: content" line of the context. */
  function Line(m: Message): string
  {
    m.role + ": " + m.content + "\n"
  }

  /** The lines of the given messages, oldest first. */
  function HistoryText(w: seq<Message>): string
    decreases |w|
  {
    if w == [] then "" else HistoryText(w[..|w| - 1]) + Line(w[|w| - 1])
  }

  lemma {:induction false} HistoryTextConcat(a: seq<Message>, b: seq<Message>)
    ensures HistoryText(a + b) == HistoryText(a) + HistoryText(b)
    decreases |b|
  {
    if b == [] {
      assert a + b == a;
    } else {
      var init, x := b[..|b| - 1], b[|b| - 1];
      assert b == init + [x];
      assert a + b == (a + init) + [x];
      HistoryTextConcat(a, init);
      HistoryTextSnoc(a + init, x);
      HistoryTextSnoc(init, x);
      assert HistoryText(a) + HistoryText(init) + Line(x) == HistoryText(a) + (HistoryText(init) + Line(x));
    }
  }

  lemma HistoryTextSnoc(w: seq<Message>, m: Message)
    ensures HistoryText(w + [m]) == HistoryText(w) + Line(m)
  {
    assert (w + [m])[..|w|] == w;
  }

  lemma WindowSnoc(head: seq<Message>, h: seq<Message>, start: nat, i: nat)
    requires start <= i < |h|
    ensures head + h[start..i + 1] == (head + h[start..i]) + [h[i]]
  {
    assert h[start..i + 1] == h[start..i] + [h[i]];
  }

  /** The history lines of buildPromptWithContext: the last min(limit, |hs|)
      messages, oldest first, when that count is positive. */
  method CollectHistory(hs: seq<Message>, limit: int) returns (text: string)
    ensures text == HistoryText(Window(hs, limit))
  {
    var n := Min(limit, |hs|);
    var start := |hs| - n;
    text := "";
    if n > 0 {
      var i := start;
      assert hs[start..i] == [];
      while i < |hs|
        invariant start <= i <= |hs|
        invariant text == HistoryText(hs[start..i])
      {
        assert hs[start..i + 1] == hs[start..i] + [hs[i]];
        HistoryTextSnoc(hs[start..i], hs[i]);
        text := text + Line(hs[i]);
        i := i + 1;
      }
      assert hs[start..i] == Window(hs, limit);
    }
  }

  /** The context of buildPromptWithContext: empty without history, otherwise the
      context template with {history} standing for the lines of the window. */
  function ContextFor(p: PromptConfig, h: seq<Message>): string
  {
    if h == [] then ""
    else ExpandSpec(p.contextTemplate, [("history", HistoryText(Window(h, p.maxHistoryMessages)))])
  }

  /** buildPromptWithContext: the user template with {context} and {user_input}
      expanded, "context" first as the map orders them. */
  function PromptFor(p: PromptConfig, h: seq<Message>, input: string): string
  {
    ExpandSpec(p.userPromptTemplate, [("context", ContextFor(p, h)), ("user_input", input)])
  }

  /** The prompt sees only the window: histories that agree on their last
      max_history_messages entries give the same prompt. */
  lemma PromptSeesOnlyWindow(p: PromptConfig, h1: seq<Message>, h2: seq<Message>, input: string)
    requires h1 != [] && h2 != []
    requires Window(h1, p.maxHistoryMessages) == Window(h2, p.maxHistoryMessages)
    ensures PromptFor(p, h1, input) == PromptFor(p, h2, input)
  {
  }

  /** Each window entry contributes exactly its line: appending one message to a
      history the window covers whole appends one line to the history text. */
  lemma WindowTextGrows(h: seq<Message>, m: Message, limit: int)
    requires |h| < limit
    ensures HistoryText(Window(h + [m], limit)) == HistoryText(Window(h, limit)) + Line(m)
  {
    var w := Window(h + [m], limit);
    assert w == h + [m];
    assert w[..|w| - 1] == h;
    assert Window(h, limit) == h;
  }

  // ---------------------------------------------------------------------------
  // History, persistence and titles on values

  /** The part of the assistant the conversation operations change. */
  datatype Session = Session(currentId: string, history: seq<Message>, database: Store.Database)

  /** trimConversationHistory: once the history is longer than twice the limit,
      only the last `limit` messages are kept. A negative limit never trims. */
  function Trimmed(h: seq<Message>, max: int): seq<Message>
  {
    if max >= 0 && |h| > 2 * max then h[|h| - max..] else h
  }

  /** addMessageToHistory: the message, stamped with the current conversation id,
      joins the history and, with auto-save on and a conversation open, the store;
      then the history is trimmed. */
  function Added(s: Session, cfg: AssistantConfig, m: Message): Session
  {
    var msg := m.(conversationId := s.currentId);
    Session(s.currentId, Trimmed(s.history + [msg], cfg.maxHistory),
            if cfg.autoSave && s.currentId != "" then Store.Append(s.database, s.currentId, msg) else s.database)
  }

  /** The trim law: after every addition the history is at most twice the limit;
      when the trim fires exactly the last `limit` messages remain, in order;
      otherwise the message is simply appended. */
  lemma TrimLaw(s: Session, cfg: AssistantConfig, m: Message)
    ensures var full := s.history + [m.(conversationId := s.currentId)];
            var h := Added(s, cfg, m).history;
            && (cfg.maxHistory >= 0 ==> |h| <= 2 * cfg.maxHistory)
            && (cfg.maxHistory >= 0 && |full| > 2 * cfg.maxHistory ==> h == full[|full| - cfg.maxHistory..])
            && (cfg.maxHistory < 0 || |full| <= 2 * cfg.maxHistory ==> h == full)
  {
  }

  /** Persistence rule: the stamped message reaches the store only with auto-save
      on, a non-empty id and that conversation stored; nothing else in the store
      changes, and the conversation id is kept. */
  lemma PersistRule(s: Session, cfg: AssistantConfig, m: Message)
    ensures Added(s, cfg, m).currentId == s.currentId
    ensures forall k :: k != s.currentId ==> Store.Find(Added(s, cfg, m).database, k) == Store.Find(s.database, k)
    ensures var before := Store.Find(s.database, s.currentId);
            Store.Find(Added(s, cfg, m).database, s.currentId) ==
              if cfg.autoSave && s.currentId != "" && before.Some?
              then Some(before.value.(messages := before.value.messages + [m.(conversationId := s.currentId)]))
              else before
  {
  }

  /** A normal turn with a limit of at least two keeps the stamped user and
      assistant messages as the last two history entries. */
  lemma TurnEndsWithExchange(s: Session, cfg: AssistantConfig, user: string, reply: string)
    requires cfg.maxHistory >= 2
    ensures var s2 := Added(Added(s, cfg, NewMessage("user", user)), cfg, NewMessage("assistant", reply));
            |s2.history| >= 2
            && s2.history[|s2.history| - 2] == Message("", s.currentId, "user", user)
            && s2.history[|s2.history| - 1] == Message("", s.currentId, "assistant", reply)
  {
    var s1 := Added(s, cfg, NewMessage("user", user));
    var full := s1.history + [NewMessage("assistant", reply).(conversationId := s.currentId)];
    assert s1.history[|s1.history| - 1] == Message("", s.currentId, "user", user);
    assert full[|full| - 2] == Message("", s.currentId, "user", user);
  }

  /** The input is sent twice: with a positive limit the request's last history
      entry is the stamped user message, followed by the bare user turn. */
  lemma InputSentTwice(s: Session, cfg: AssistantConfig, system: string, input: string)
    requires cfg.maxHistory >= 1
    ensures var r := RequestMessages(system, Added(s, cfg, NewMessage("user", input)).history, cfg.maxHistory, input);
            |r| >= 2 && r[|r| - 2] == Message("", s.currentId, "user", input) && r[|r| - 1] == NewMessage("user", input)
  {
    var h := Added(s, cfg, NewMessage("user", input)).history;
    AddedLast(s, cfg, NewMessage("user", input));
    RequestEndsWithLast(system, h, cfg.maxHistory, input);
  }

  /** With a positive limit the added message, stamped, ends the history. */
  lemma AddedLast(s: Session, cfg: AssistantConfig, m: Message)
    requires cfg.maxHistory >= 1
    ensures var h := Added(s, cfg, m).history;
            |h| >= 1 && h[|h| - 1] == m.(conversationId := s.currentId)
  {
    var full := s.history + [m.(conversationId := s.currentId)];
    var h := Trimmed(full, cfg.maxHistory);
    assert h[|h| - 1] == full[|full| - 1];
  }

  /** With a positive limit the request ends with the last history entry and then
      the user turn. */
  lemma RequestEndsWithLast(system: string, h: seq<Message>, limit: int, input: string)
    requires limit >= 1 && |h| >= 1
    ensures var r := RequestMessages(system, h, limit, input);
            |r| >= 2 && r[|r| - 2] == h[|h| - 1] && r[|r| - 1] == NewMessage("user", input)
  {
    var w := Window(h, limit);
    var sys := SystemPart(system);
    var r := sys + w + [NewMessage("user", input)];
    assert |w| >= 1 && w[|w| - 1] == h[|h| - 1];
    assert r[|r| - 2] == (sys + w)[|sys| + |w| - 1] == w[|w| - 1];
  }

  /** updateConversationInDatabase: with a conversation open and messages in the
      history, a stored conversation whose title is empty gets the title made from
      the first history message. */
  function AutoTitled(s: Session): Store.Database
  {
    if s.currentId != "" && s.history != [] then
      match Store.Find(s.database, s.currentId)
      case Some(c) =>
        if c.title == "" then Store.Retitle(s.database, s.currentId, GenerateConversationTitle(s.history[0].content))
        else s.database
      case None => s.database
    else s.database
  }

  /** The auto-title rule: a title is set only for the current conversation, only
      when the history is non-empty and the stored title empty, and it is made from
      history[0]; messages and every other conversation are untouched. */
  lemma AutoTitleRule(s: Session, k: string)
    ensures var before := Store.Find(s.database, k);
            Store.Find(AutoTitled(s), k) ==
              if k == s.currentId && k != "" && s.history != [] && before.Some? && before.value.title == ""
              then Some(before.value.(title := GenerateConversationTitle(s.history[0].content)))
              else before
  {
  }

  // ---------------------------------------------------------------------------
  // Start-up

  /** The configuration initialize leaves in a fresh manager: the defaults, read
      over by the configuration file when a path was given. */
  function StartupConfig(configPath: string, file: Option<Body>): AppConfig
  {
    var d := Defaulted(DefaultAppConfig());
    if configPath == "" || file.None? || file.value.Unparsable? then d
    else FromJsonSpec(d, file.value.doc).0
  }

  /** The reply to `input` with history `h`: the client's answer to the request
      messages, or the fixed text when there is no client. */
  function ReplyTo(peer: Option<(Provider, LLMConfig)>, system: string, limit: int, h: seq<Message>, input: string, post: Transport): string
  {
    if peer.None? then NoClientReply
    else ReplyText(Complete(peer.value.0, peer.value.1, RequestMessages(system, h, limit, input), post))
  }

  // ---------------------------------------------------------------------------
  // The assistant

  class TextAssistant {
    const configPath: string
    var initialized: bool
    var state: State
    var config: AssistantConfig
    var currentId: string
    var history: seq<Message>
    var database: Store.Database
    var configManager: ConfigManager?
    var client: LLMClient?
    var events: seq<Event>

    /** A client exists only once start-up has made the configuration manager, and
        an initialised assistant has a client. */
    predicate Valid()
      reads this`client, this`configManager, this`initialized
    {
      (client != null ==> configManager != null) && (initialized ==> client != null)
    }

    function Current(): Session
      reads this`currentId, this`history, this`database
    {
      Session(currentId, history, database)
    }

    /** The adapter and configuration of the client, if there is one. */
    function Peer(): Option<(Provider, LLMConfig)>
      reads this`client, client
    {
      if client == null then None else Some((client.kind, client.config))
    }

    /** The system prompt the configuration manager holds ("" without one). */
    function SystemPrompt(): string
      reads this`configManager, configManager
    {
      if configManager == null then "" else configManager.app.prompt.systemPrompt
    }

    constructor (configPath: string)
      ensures this.configPath == configPath
      ensures !initialized && state == Idle && config == DefaultAssistantConfig()
      ensures currentId == "" && history == [] && database == Store.Missing
      ensures configManager == null && client == null && events == []
      ensures Valid()
    {
      this.configPath := configPath;
      initialized := false;
      state := Idle;
      config := DefaultAssistantConfig();
      currentId := "";
      history := [];
      database := Store.Missing;
      configManager := null;
      client := null;
      events := [];
    }

    method SetAssistantConfig(c: AssistantConfig)
      modifies this`config
      ensures config == c
    {
      config := c;
    }

    /** setState: records the state and reports it to the callback. */
    method SetState(s: State)
      modifies this`state, this`events
      ensures state == s && events == old(events) + [Event(StateChanged, StateName(s))]
    {
      state := s;
      events := events + [Event(StateChanged, StateName(s))];
    }

    /** initialize, given the configuration file's contents and the conversations
        already in the database file (None when it cannot be opened). */
    method Initialize(file: Option<Body>, stored: Option<map<string, Store.Stored>>) returns (ok: bool)
      requires Valid()
      modifies this`configManager, this`database, this`client, this`initialized, this`state, this`events
      ensures Valid()
      ensures fresh(configManager) && configManager.app == StartupConfig(configPath, file)
      ensures ok <==> ValidAppConfig(configManager.app) && stored.Some?
      ensures ok ==> initialized && state == Idle && database == Store.Open(stored.value)
      ensures ok ==> fresh(client) && client.kind == ProviderFor(configManager.app.llm.provider)
                     && client.config == configManager.app.llm
      ensures ok ==> events == old(events) + [Event(StateChanged, "IDLE")]
      ensures !ok ==> initialized == old(initialized) && state == old(state) && events == old(events)
                      && client == old(client)
      ensures !ok ==> database == if ValidAppConfig(configManager.app) then Store.Failed else old(database)
    {
      var m := new ConfigManager();
      if configPath != "" {
        var _ := m.LoadConfig(file);
      } else {
        m.LoadDefaultConfig();
      }
      configManager := m;
      if !m.ValidateConfig() {
        return false;
      }
      if stored.None? {
        database := Store.Failed;
        return false;
      }
      database := Store.Open(stored.value);
      client := LLMClient.CreateClient(m.app.llm);
      initialized := true;
      SetState(Idle);
      ok := true;
    }

    /** trimConversationHistory. */
    method TrimConversationHistory()
      modifies this`history
      ensures history == Trimmed(old(history), config.maxHistory)
    {
      if config.maxHistory >= 0 && |history| > 2 * config.maxHistory {
        var keep := config.maxHistory;
        history := history[|history| - keep..];
      }
    }

    /** addMessageToHistory. */
    method AddMessageToHistory(m: Message)
      modifies this`history, this`database
      ensures Current() == Added(old(Current()), config, m)
      ensures events == old(events) && state == old(state)
    {
      var msg := m.(conversationId := currentId);
      history := history + [msg];
      if config.autoSave && !database.Missing? && currentId != "" {
        database := Store.Append(database, currentId, msg);
      }
      TrimConversationHistory();
    }

    /** buildPromptWithContext. */
    method BuildPromptWithContext(input: string) returns (prompt: string)
      ensures configManager == null ==> prompt == input
      ensures configManager != null ==> prompt == PromptFor(configManager.app.prompt, history, input)
    {
      if configManager == null {
        return input;
      }
      var p := configManager.app.prompt;
      var hs := history;
      var context := "";
      if |hs| > 0 {
        var text := CollectHistory(hs, p.maxHistoryMessages);
        context := ExpandTemplate(p.contextTemplate, [("history", text)]);
      }
      prompt := ExpandTemplate(p.userPromptTemplate, [("context", context), ("user_input", input)]);
    }

    /** generateResponse. The template prompt is built and then not used. The ghost
        parameters name the client, system prompt and history the reply is made from. */
    method GenerateResponse(input: string, post: Transport, ghost peer: Option<(Provider, LLMConfig)>,
                            ghost system: string, ghost h: seq<Message>) returns (reply: string)
      requires Valid() && peer == Peer() && system == SystemPrompt() && h == history
      ensures reply == ReplyTo(peer, system, config.maxHistory, h, input, post)
    {
      if client == null {
        return NoClientReply;
      }
      var prompt := BuildPromptWithContext(input);
      var messages: seq<Message> := [];
      var systemPrompt := configManager.app.prompt.systemPrompt;
      if systemPrompt != "" {
        messages := messages + [NewMessage("system", systemPrompt)];
      }
      var head := messages;
      assert head == SystemPart(systemPrompt);
      var limit := Min(config.maxHistory, |history|);
      if limit > 0 {
        var start := |history| - limit;
        var i := start;
        while i < |history|
          invariant start <= i <= |history|
          invariant messages == head + history[start..i]
        {
          WindowSnoc(head, history, start, i);
          messages := messages + [history[i]];
          i := i + 1;
        }
        assert history[start..i] == Window(history, config.maxHistory);
      }
      messages := messages + [NewMessage("user", input)];
      assert messages == RequestMessages(systemPrompt, history, config.maxHistory, input);
      var response := client.ChatCompletion(messages, post);
      if response.success {
        reply := response.content;
      } else {
        reply := FailedReply;
      }
    }

    /** processTextInput: a rejected input changes nothing; otherwise the user
        message is recorded, the reply generated from the history that already
        holds it, the reply recorded, and the assistant returns to IDLE. */
    method ProcessTextInput(input: string, post: Transport) returns (reply: string)
      requires Valid()
      modifies this`state, this`events, this`history, this`database
      ensures Valid()
      ensures !old(initialized) || input == "" ==> reply == NotReadyReply && unchanged(this)
      ensures old(initialized) && input != "" ==>
        var s1 := Added(old(Current()), config, NewMessage("user", input));
        && reply == ReplyTo(old(Peer()), old(SystemPrompt()), config.maxHistory, s1.history, input, post)
        && Current() == Added(s1, config, NewMessage("assistant", reply))
        && state == Idle
        && events == old(events) + [Event(StateChanged, "PROCESSING")] + [Event(StateChanged, "IDLE")] + [Event(ResponseGenerated, reply)]
    {
      if !initialized || input == "" {
        return NotReadyReply;
      }
      ghost var s0, e0 := Current(), events;
      SetState(Processing);
      AddMessageToHistory(NewMessage("user", input));
      ghost var s1 := Added(s0, config, NewMessage("user", input));
      assert Current() == s1 && history == s1.history;
      assert Peer() == old(Peer()) && SystemPrompt() == old(SystemPrompt());
      reply := GenerateResponse(input, post, old(Peer()), old(SystemPrompt()), s1.history);
      Conclude(reply, e0 + [Event(StateChanged, "PROCESSING")]);
    }

    /** The end of a normal turn: the reply joins the history, the state returns to
        IDLE and the reply is reported. */
    method Conclude(reply: string, ghost e: seq<Event>)
      requires events == e
      modifies this`state, this`events, this`history, this`database
      ensures Current() == Added(old(Current()), config, NewMessage("assistant", reply))
      ensures state == Idle && events == e + [Event(StateChanged, "IDLE")] + [Event(ResponseGenerated, reply)]
    {
      AddMessageToHistory(NewMessage("assistant", reply));
      SetState(Idle);
      events := events + [Event(ResponseGenerated, reply)];
    }

    /** updateConversationInDatabase. */
    method UpdateConversationInDatabase() returns (ok: bool)
      modifies this`database
      ensures ok <==> !old(database).Missing? && currentId != ""
      ensures database == AutoTitled(old(Current()))
    {
      if database.Missing? || currentId == "" {
        return false;
      }
      if |history| > 0 {
        var c := Store.Find(database, currentId);
        if c.Some? && c.value.title == "" {
          var title := GenerateConversationTitle(history[0].content);
          database := Store.Retitle(database, currentId, title);
        }
      }
      ok := true;
    }

    /** saveCurrentConversation. */
    method SaveCurrentConversation() returns (ok: bool)
      modifies this`database
      ensures ok <==> !old(database).Missing? && currentId != ""
      ensures database == AutoTitled(old(Current()))
    {
      if currentId == "" || database.Missing? {
        return false;
      }
      ok := UpdateConversationInDatabase();
    }

    /** startNewConversation, with the id the store's generator produced. */
    method StartNewConversation(title: string, generated: string) returns (id: string)
      requires generated != ""
      modifies this`currentId, this`history, this`database, this`events
      ensures old(database).Missing? ==> id == "" && unchanged(this)
      ensures !old(database).Missing? ==>
        var saved := if old(currentId) != "" && config.autoSave then AutoTitled(old(Current())) else old(database);
        && (database, id) == Store.Create(saved, title, generated)
        && currentId == id && history == []
        && events == old(events) + (if id != "" then [Event(StateChanged, "New conversation started")] else [])
    {
      if database.Missing? {
        return "";
      }
      if currentId != "" && config.autoSave {
        var _ := UpdateConversationInDatabase();
      }
      var created := Store.Create(database, title, generated);
      database := created.0;
      currentId := created.1;
      history := [];
      if currentId != "" {
        events := events + [Event(StateChanged, "New conversation started")];
      }
      id := currentId;
    }

    /** loadConversation: an unknown id changes nothing; otherwise the current
        conversation is saved and the stored one replaces id and history. */
    method LoadConversation(id: string) returns (ok: bool)
      modifies this`currentId, this`history, this`database
      ensures ok <==> Store.Find(old(database), id).Some?
      ensures !ok ==> unchanged(this)
      ensures ok ==> currentId == id && history == Store.Find(old(database), id).value.messages
      ensures ok ==> database == if old(currentId) != "" && config.autoSave then AutoTitled(old(Current())) else old(database)
    {
      if database.Missing? {
        return false;
      }
      var c := Store.Find(database, id);
      if c.None? {
        return false;
      }
      if currentId != "" && config.autoSave {
        var _ := UpdateConversationInDatabase();
      }
      currentId := id;
      history := c.value.messages;
      ok := true;
    }

    /** deleteConversation: deleting the current conversation also clears the
        current id and the history. */
    method DeleteConversation(id: string) returns (ok: bool)
      modifies this`currentId, this`history, this`database
      ensures old(database).Missing? ==> !ok && unchanged(this)
      ensures !old(database).Missing? ==> (database, ok) == Store.Delete(old(database), id)
      ensures !old(database).Missing? && old(currentId) == id ==> currentId == "" && history == []
      ensures old(database).Missing? || old(currentId) != id ==> currentId == old(currentId) && history == old(history)
    {
      if database.Missing? {
        return false;
      }
      if currentId == id {
        currentId := "";
        history := [];
      }
      var r := Store.Delete(database, id);
      database := r.0;
      ok := r.1;
    }

    method ClearConversationHistory()
      modifies this`history
      ensures history == []
    {
      history := [];
    }

    /** setLLMProvider: the manager keeps the configuration only if it validates,
        but the client is rebuilt from it either way and true is returned. */
    method SetLLMProvider(c: LLMConfig) returns (ok: bool)
      requires Valid()
      modifies this`client, configManager
      ensures Valid()
      ensures ok <==> configManager != null
      ensures !ok ==> client == old(client)
      ensures ok ==> fresh(client) && client.kind == ProviderFor(c.provider) && client.config == c
      ensures ok ==> configManager.app == if ValidLLMConfig(c) then old(configManager.app).(llm := c) else old(configManager.app)
    {
      if configManager == null {
        return false;
      }
      configManager.SetLLMConfig(c);
      client := LLMClient.CreateClient(c);
      ok := true;
    }

    /** setSystemPrompt: goes through the guarded prompt setter; only the history
        limit decides validity, so the new system prompt is stored exactly when the
        current prompt configuration is valid. */
    method SetSystemPrompt(prompt: string)
      modifies configManager
      ensures configManager != null ==>
        configManager.app == (if ValidPromptConfig(old(configManager.app.prompt))
                              then old(configManager.app).(prompt := old(configManager.app.prompt).(systemPrompt := prompt))
                              else old(configManager.app))
    {
      if configManager == null {
        return;
      }
      var p := configManager.app.prompt.(systemPrompt := prompt);
      configManager.SetPromptConfig(p);
    }
  }

  /** A rejected provider configuration is still reported as applied: the client
      runs on it while the manager keeps the previous one. */
  method RejectedProviderStillApplied() returns (ok: bool, clientConfig: LLMConfig, managerConfig: LLMConfig)
    ensures ok && clientConfig != managerConfig && clientConfig.provider == ""
  {
    var a := new TextAssistant("");
    var _ := a.Initialize(None, Some(map[]));
    var bad := DefaultLLMConfig();
    ok := a.SetLLMProvider(bad);
    clientConfig := a.client.config;
    managerConfig := a.configManager.app.llm;
  }
}
