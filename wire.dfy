/**
  The Gemini wire format and the converter
  `GoogleGeminiBot._convert_to_gemini_messages`, which turns stored
  messages into `{"role": ..., "parts": [{"text": ...}]}` turns.
 */
module Wire {
  import opened Common
  import opened History

  /** One `{"text": ...}` entry of a turn's `parts`. */
  datatype Part = Part(text: string)

  /** One `{"role": ..., "parts": [...]}` turn sent to the API. */
  datatype GeminiTurn = GeminiTurn(role: string, parts: seq<Part>)

  /**
    The wire role of a stored role: assistant messages become "model",
    user and system messages become "user", and any other role has none.
   */
  function WireRole(r: Role): (w: Option<string>)
    ensures w.Some? <==> r != Other
    ensures w.Some? ==> (w.value == "model" <==> r == Assistant)
    ensures w.Some? ==> w.value == "user" || w.value == "model"
  {
    match r
    case User => Some("user")
    case Assistant => Some("model")
    case System => Some("user")
    case Other => None
  }

  /** What `_convert_to_gemini_messages` returns, defined on the last message. */
  function Converted(ms: seq<Message>): seq<GeminiTurn>
  {
    if ms == [] then []
    else
      var m := ms[|ms| - 1];
      Converted(ms[..|ms| - 1])
        + match WireRole(m.role)
          case None => []
          case Some(w) => [GeminiTurn(w, [Part(m.content)])]
  }

  /** `_convert_to_gemini_messages`: the loop that appends one turn per convertible message. */
  method ConvertToGeminiMessages(messages: seq<Message>) returns (res: seq<GeminiTurn>)
    ensures res == Converted(messages)
  {
    res := [];
    for i := 0 to |messages|
      invariant res == Converted(messages[..i])
    {
      var msg := messages[i];
      assert messages[..i + 1][..i] == messages[..i];
      var role: string;
      if msg.role == User {
        role := "user";
      } else if msg.role == Assistant {
        role := "model";
      } else if msg.role == System {
        role := "user";
      } else {
        continue;
      }
      res := res + [GeminiTurn(role, [Part(msg.content)])];
    }
    assert messages[..|messages|] == messages;
  }

  /** The messages of `s` whose role the converter knows, in order. */
  function Known(s: seq<Message>): seq<Message>
  {
    if s == [] then []
    else Known(s[..|s| - 1]) + (if s[|s| - 1].role != Other then [s[|s| - 1]] else [])
  }

  /** Turn k of `c` is the wire form of message k of `ms`. */
  ghost predicate TurnsMatch(c: seq<GeminiTurn>, ms: seq<Message>)
  {
    |c| == |ms|
    && forall k :: 0 <= k < |c| ==>
         c[k].parts == [Part(ms[k].content)]
         && (c[k].role == "user" || c[k].role == "model")
         && (c[k].role == "model" <==> ms[k].role == Assistant)
  }

  lemma TurnsMatchSnoc(c: seq<GeminiTurn>, ms: seq<Message>, t: GeminiTurn, m: Message)
    requires TurnsMatch(c, ms)
    requires t.parts == [Part(m.content)] && (t.role == "user" || t.role == "model")
    requires t.role == "model" <==> m.role == Assistant
    ensures TurnsMatch(c + [t], ms + [m])
  {
  }

  /**
    The converter is a filter followed by a map: it drops exactly the
    messages with an unknown role, keeps the order of the rest, and turns
    each into one turn with a single text part holding its content, with
    role "model" for assistant messages and "user" otherwise.
   */
  lemma {:induction false} ConvertedIsMapOfKnown(ms: seq<Message>)
    ensures TurnsMatch(Converted(ms), Known(ms))
    decreases |ms|
  {
    if ms != [] {
      var m := ms[|ms| - 1];
      ConvertedIsMapOfKnown(ms[..|ms| - 1]);
      if m.role != Other {
        TurnsMatchSnoc(Converted(ms[..|ms| - 1]), Known(ms[..|ms| - 1]),
          GeminiTurn(WireRole(m.role).value, [Part(m.content)]), m);
      }
    }
  }

  /** A history without unknown roles loses nothing to the converter's filter. */
  lemma {:induction false} KnownOfKnown(ms: seq<Message>)
    requires forall m :: m in ms ==> m.role != Other
    ensures Known(ms) == ms
    decreases |ms|
  {
    if ms != [] {
      assert ms == ms[..|ms| - 1] + [ms[|ms| - 1]];
      KnownOfKnown(ms[..|ms| - 1]);
    }
  }

  /**
    Converting a normalised history drops nothing: turn k is the wire form
    of kept message k, every role is "user" or "model", and the newest turn
    is a "user" turn.
   */
  lemma ConvertFiltered(ms: seq<Message>)
    ensures var f := Filtered(ms); var c := Converted(f);
      TurnsMatch(c, f) && (|c| > 0 ==> c[|c| - 1].role == "user")
  {
    var f := Filtered(ms);
    FilteredRolesKnown(ms);
    KnownOfKnown(f);
    ConvertedIsMapOfKnown(f);
    FilteredEndsWithUserOrSystem(ms);
  }

  /**
    Once the session has appended the user's query, the newest turn sent to
    the API is that query, as a "user" turn with a single text part.
   */
  lemma QueryIsLastTurn(history: seq<Message>, query: string)
    ensures var c := Converted(Filtered(history + [Message(User, query)]));
      |c| > 0 && c[|c| - 1] == GeminiTurn("user", [Part(query)])
  {
    var q := Message(User, query);
    FilterStep(history, q, User);
    var f := FilterFrom(history, Assistant);
    assert Filtered(history + [q]) == f + [q];
    assert (f + [q])[..|f|] == f;
  }

  /** The example exchange user/assistant/user is sent as user/model/user. */
  lemma ConvertExample()
    ensures Converted(Filtered([Message(User, "hi"), Message(Assistant, "hello"), Message(User, "bye")]))
         == [GeminiTurn("user", [Part("hi")]), GeminiTurn("model", [Part("hello")]), GeminiTurn("user", [Part("bye")])]
  {
    var hi, hello, bye := Message(User, "hi"), Message(Assistant, "hello"), Message(User, "bye");
    FilterExample();
    assert [hi, hello, bye][..2] == [hi, hello];
    assert [hi, hello][..1] == [hi];
    assert [hi][..0] == [];
    assert Converted([hi]) == [GeminiTurn("user", [Part("hi")])];
    assert Converted([hi, hello]) == [GeminiTurn("user", [Part("hi")]), GeminiTurn("model", [Part("hello")])];
  }

  /** A message with an unknown role (a tool message, say), wherever it stands, never reaches the wire. */
  lemma {:induction false} ConvertDropsOther(a: seq<Message>, content: string, b: seq<Message>)
    ensures Converted(a + [Message(Other, content)] + b) == Converted(a + b)
    decreases |b|
  {
    var x := Message(Other, content);
    if b == [] {
      assert a + [x] + b == a + [x] && a + b == a;
      assert (a + [x])[..|a|] == a;
    } else {
      var older, y := b[..|b| - 1], b[|b| - 1];
      assert (a + [x] + b)[..|a + [x] + b| - 1] == a + [x] + older;
      assert (a + b)[..|a + b| - 1] == a + older;
      ConvertDropsOther(a, content, older);
    }
  }

  /**
    In the turns actually sent, two neighbouring turns share a role only
    where one of them comes from a system message (which is sent as "user").
   */
  lemma ConvertedNeighbours(ms: seq<Message>)
    ensures var f := Filtered(ms); var c := Converted(f);
      |c| == |f|
      && forall k :: 0 <= k < |c| - 1 && c[k].role == c[k + 1].role ==>
           f[k].role == System || f[k + 1].role == System
  {
    var f := Filtered(ms);
    var c := Converted(f);
    ConvertFiltered(ms);
    FilteredRolesKnown(ms);
    FilteredNeighbours(ms);
    forall k | 0 <= k < |c| - 1 && c[k].role == c[k + 1].role
      ensures f[k].role == System || f[k + 1].role == System
    {
      assert f[k] in f && f[k + 1] in f;
    }
  }
}
