/**
  The grounding check inside `GoogleGeminiBot.reply`: when a grounding
  prefix is configured and the newest turn's text starts with it, the
  prefix is removed, the text is stripped, and search grounding is asked for.
 */
module Grounding {
  import opened Common
  import opened PyStr
  import opened History
  import opened Wire

  /**
    The result of the check: the turns to send and whether grounding is on,
    or the `IndexError` raised when a prefix is configured but there is no
    newest turn (or it has no part) to look at.
   */
  datatype Grounding = Grounded(turns: seq<GeminiTurn>, enabled: bool) | LastTurnMissing

  /** The text of the first part of the newest turn. */
  function LastText(msgs: seq<GeminiTurn>): string
    requires |msgs| > 0 && |msgs[|msgs| - 1].parts| > 0
  {
    msgs[|msgs| - 1].parts[0].text
  }

  /** The check, with the prefix sitting at position 0 dropped by slicing. */
  function Ground(msgs: seq<GeminiTurn>, prefix: Option<string>): Grounding
  {
    if prefix.None? then Grounded(msgs, false)
    else if |msgs| == 0 || |msgs[|msgs| - 1].parts| == 0 then LastTurnMissing
    else if !StartsWith(LastText(msgs), prefix.value) then Grounded(msgs, false)
    else
      var last := msgs[|msgs| - 1];
      var text := Strip(LastText(msgs)[|prefix.value|..]);
      Grounded(msgs[|msgs| - 1 := last.(parts := last.parts[0 := Part(text)])], true)
  }

  /** The grounding block as written: `replace(prefix, "", 1)`, `strip()`, and an overwrite of the newest text. */
  method ApplyGrounding(geminiMessages: seq<GeminiTurn>, groundingPrefix: Option<string>) returns (g: Grounding)
    ensures g == Ground(geminiMessages, groundingPrefix)
  {
    var msgs := geminiMessages;
    var useGrounding := false;
    if groundingPrefix.Some? {
      if |msgs| == 0 || |msgs[|msgs| - 1].parts| == 0 {
        return LastTurnMissing;
      }
      var last := msgs[|msgs| - 1];
      var text := last.parts[0].text;
      if StartsWith(text, groundingPrefix.value) {
        ReplacePrefix(text, groundingPrefix.value);
        var stripped := Strip(ReplaceFirst(text, groundingPrefix.value, ""));
        msgs := msgs[|msgs| - 1 := last.(parts := last.parts[0 := Part(stripped)])];
        useGrounding := true;
      }
    }
    g := Grounded(msgs, useGrounding);
  }

  /**
    When the check fails and when it turns grounding on: it fails exactly
    when a prefix is set and there is no newest text to look at, and
    grounding is on exactly when a prefix is set and the newest text starts
    with it.
   */
  lemma GroundingDecision(msgs: seq<GeminiTurn>, prefix: Option<string>)
    ensures Ground(msgs, prefix).LastTurnMissing?
        <==> prefix.Some? && (|msgs| == 0 || |msgs[|msgs| - 1].parts| == 0)
    ensures Ground(msgs, prefix).Grounded? && Ground(msgs, prefix).enabled
        <==> prefix.Some? && |msgs| > 0 && |msgs[|msgs| - 1].parts| > 0 && StartsWith(LastText(msgs), prefix.value)
    ensures Ground(msgs, prefix).Grounded? && !Ground(msgs, prefix).enabled ==> Ground(msgs, prefix).turns == msgs
  {
  }

  /**
    The check touches nothing but the newest turn's first text: the number
    of turns, every older turn, the newest turn's role and its other parts
    stay as they were.
   */
  lemma GroundingKeepsTheRest(msgs: seq<GeminiTurn>, prefix: Option<string>)
    requires Ground(msgs, prefix).Grounded?
    ensures var t := Ground(msgs, prefix).turns;
      |t| == |msgs|
      && (forall k :: 0 <= k < |msgs| - 1 ==> t[k] == msgs[k])
      && (|msgs| > 0 ==>
            t[|t| - 1].role == msgs[|msgs| - 1].role
            && |t[|t| - 1].parts| == |msgs[|msgs| - 1].parts|
            && (|msgs[|msgs| - 1].parts| > 0 ==> t[|t| - 1].parts[1..] == msgs[|msgs| - 1].parts[1..]))
  {
  }

  /**
    With grounding on, the old newest text starts with the prefix and what
    follows the prefix is whitespace, then the new newest text, then
    whitespace; the new text neither starts nor ends with whitespace.
   */
  lemma GroundedText(msgs: seq<GeminiTurn>, prefix: Option<string>)
    requires Ground(msgs, prefix).Grounded? && Ground(msgs, prefix).enabled
    ensures var t := Ground(msgs, prefix).turns;
      |t| > 0 && |t[|t| - 1].parts| > 0
      && var text := LastText(t);
      (text == [] || (!IsSpace(text[0]) && !IsSpace(text[|text| - 1])))
      && StartsWith(LastText(msgs), prefix.value)
      && exists lead, trail :: AllSpace(lead) && AllSpace(trail)
           && LastText(msgs)[|prefix.value|..] == lead + text + trail
  {
    var p := prefix.value;
    var before := LastText(msgs);
    var rest := before[|p|..];
    var t := Ground(msgs, prefix).turns;
    assert LastText(t) == Strip(rest);
    StripShape(rest);
    var lead, trail := StripDecompose(rest);
  }

  /** Without a matching prefix, turns ending in the user's text `query` pass unchanged. */
  lemma GroundUserTextPlain(c: seq<GeminiTurn>, query: string, prefix: Option<string>)
    requires |c| > 0 && c[|c| - 1] == GeminiTurn("user", [Part(query)])
    requires prefix.None? || !StartsWith(query, prefix.value)
    ensures Ground(c, prefix) == Grounded(c, false)
  {
    if prefix.Some? {
      assert LastText(c) == query;
    }
  }

  /** With a matching prefix, the user's text `query` is replaced by its stripped remainder. */
  lemma GroundUserTextStripped(c: seq<GeminiTurn>, query: string, prefix: Option<string>)
    requires |c| > 0 && c[|c| - 1] == GeminiTurn("user", [Part(query)])
    requires prefix.Some? && StartsWith(query, prefix.value)
    ensures Ground(c, prefix)
         == Grounded(c[|c| - 1 := GeminiTurn("user", [Part(Strip(query[|prefix.value|..]))])], true)
  {
    var n := |c|;
    var text := Strip(query[|prefix.value|..]);
    assert LastText(c) == query;
    assert c[n - 1].(parts := c[n - 1].parts[0 := Part(text)]) == GeminiTurn("user", [Part(text)]);
  }

  /** The check on turns whose newest one is the user's text `query`. */
  lemma GroundUserText(c: seq<GeminiTurn>, query: string, prefix: Option<string>)
    requires |c| > 0 && c[|c| - 1] == GeminiTurn("user", [Part(query)])
    ensures var g := Ground(c, prefix);
      g.Grounded?
      && (g.enabled <==> prefix.Some? && StartsWith(query, prefix.value))
      && |g.turns| > 0
      && g.turns[|g.turns| - 1]
         == GeminiTurn("user", [Part(if g.enabled then Strip(query[|prefix.value|..]) else query)])
  {
    if prefix.Some? && StartsWith(query, prefix.value) {
      GroundUserTextStripped(c, query, prefix);
    } else {
      GroundUserTextPlain(c, query, prefix);
    }
  }

  /**
    On the path `reply` takes, the history ends with the user's query, so
    the check never fails there; grounding is on exactly when a prefix is
    set and the query starts with it, and the newest turn then carries the
    stripped remainder of the query.
   */
  lemma GroundQuery(history: seq<Message>, query: string, prefix: Option<string>)
    ensures var g := Ground(Converted(Filtered(history + [Message(User, query)])), prefix);
      g.Grounded?
      && (g.enabled <==> prefix.Some? && StartsWith(query, prefix.value))
      && |g.turns| > 0
      && g.turns[|g.turns| - 1]
         == GeminiTurn("user", [Part(if g.enabled then Strip(query[|prefix.value|..]) else query)])
  {
    QueryIsLastTurn(history, query);
    GroundUserText(Converted(Filtered(history + [Message(User, query)])), query, prefix);
  }

  /**
    A newest user text made of the prefix, one whitespace character and an
    unpadded text is sent as that text, with grounding on.
   */
  lemma GroundSpacedQuery(c: seq<GeminiTurn>, query: string, prefix: Option<string>, c0: char, w: string)
    requires |c| > 0 && c[|c| - 1] == GeminiTurn("user", [Part(query)])
    requires prefix.Some? && query == prefix.value + [c0] + w && IsSpace(c0)
    requires w == [] || (!IsSpace(w[0]) && !IsSpace(w[|w| - 1]))
    ensures Ground(c, prefix) == Grounded(c[|c| - 1 := GeminiTurn("user", [Part(w)])], true)
  {
    StripAfterPrefix(query, prefix.value, c0, w);
    GroundUserTextStripped(c, query, prefix);
  }

  /** The texts of the grounding example: the asked text is the prefix, a space and the sent text. */
  lemma GroundingExampleTexts(asked: seq<GeminiTurn>, sent: seq<GeminiTurn>, prefix: Option<string>)
    requires prefix == Some("!search")
    requires asked == [GeminiTurn("user", [Part("!search weather today")])]
    requires sent == [GeminiTurn("user", [Part("weather today")])]
    ensures LastText(asked) == prefix.value + [' '] + LastText(sent)
    ensures asked[0 := GeminiTurn("user", [Part(LastText(sent))])] == sent
  {
  }

  /**
    The grounding example: with the prefix "!search", the turn
    "!search weather today" is sent as "weather today", with grounding on.
   */
  lemma GroundingExample(asked: seq<GeminiTurn>, sent: seq<GeminiTurn>, prefix: Option<string>)
    requires prefix == Some("!search")
    requires asked == [GeminiTurn("user", [Part("!search weather today")])]
    requires sent == [GeminiTurn("user", [Part("weather today")])]
    ensures Ground(asked, prefix) == Grounded(sent, true)
  {
    GroundingExampleTexts(asked, sent, prefix);
    GroundSpacedQuery(asked, LastText(asked), prefix, ' ', LastText(sent));
  }

  /** With the same prefix, the turn "weather today" is sent as it is, with grounding off. */
  lemma NotGroundedExample(sent: seq<GeminiTurn>, prefix: Option<string>)
    requires prefix == Some("!search")
    requires sent == [GeminiTurn("user", [Part("weather today")])]
    ensures Ground(sent, prefix) == Grounded(sent, false)
  {
    var w := LastText(sent);
    assert w[0] != prefix.value[0];
    GroundUserTextPlain(sent, w, prefix);
  }
}
