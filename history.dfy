/**
  The chat history kept by the session store and the normaliser
  `GoogleGeminiBot.filter_messages`, which repairs a history so that its
  non-system messages alternate user/assistant, ending with a user turn.
 */
module History {

  /** The role tag of a stored message; `Other` stands for any other tag (or none). */
  datatype Role = User | Assistant | System | Other

  datatype Message = Message(role: Role, content: string)

  /** The expected-turn update of the scan: user and assistant swap, anything else stays. */
  function Flip(turn: Role): (r: Role)
    ensures turn == User <==> r == Assistant
    ensures turn == Assistant <==> r == User
    ensures !(turn == User || turn == Assistant) ==> r == turn
  {
    match turn
    case User => Assistant
    case Assistant => User
    case _ => turn
  }

  predicate IsTurnRole(r: Role) { r == User || r == Assistant }

  /**
    The result of scanning `ms` from its newest message to its oldest with
    expected role `turn`; the newest message is processed first.
   */
  function FilterFrom(ms: seq<Message>, turn: Role): seq<Message>
    decreases |ms|
  {
    if ms == [] then []
    else
      var m := ms[|ms| - 1];
      var older := ms[..|ms| - 1];
      if m.role == System then FilterFrom(older, turn) + [m]
      else if m.role != turn then FilterFrom(older, turn)
      else FilterFrom(older, Flip(turn)) + [m]
  }

  /** What `filter_messages` returns: the scan starts expecting a user message. */
  function Filtered(ms: seq<Message>): seq<Message>
  {
    FilterFrom(ms, User)
  }

  /** One step of the scan: how the newest message `m` is treated. */
  lemma FilterStep(older: seq<Message>, m: Message, turn: Role)
    ensures FilterFrom(older + [m], turn) ==
      if m.role == System then FilterFrom(older, turn) + [m]
      else if m.role != turn then FilterFrom(older, turn)
      else FilterFrom(older, Flip(turn)) + [m]
  {
    assert (older + [m])[..|older|] == older;
  }

  /** `filter_messages`: the reverse index loop that prepends kept messages. */
  method FilterMessages(messages: seq<Message>) returns (res: seq<Message>)
    ensures res == Filtered(messages)
  {
    res := [];
    var turn := User;
    if |messages| == 0 {
      return;
    }
    assert messages[..|messages|] == messages;
    for i := |messages| downto 0
      invariant IsTurnRole(turn)
      invariant FilterFrom(messages[..i], turn) + res == Filtered(messages)
    {
      var message := messages[i];
      var role := message.role;
      assert messages[..i + 1][..i] == messages[..i];
      if role == System {
        res := [message] + res;
        continue;
      }
      if role != turn {
        continue;
      }
      res := [message] + res;
      if turn == User {
        turn := Assistant;
      } else if turn == Assistant {
        turn := User;
      }
    }
    assert messages[..0] == [];
  }

  // ---------------------------------------------------------------------
  // Reference notions used to state what the normaliser guarantees.

  /** The system messages of `s`, in order. */
  function SystemOnly(s: seq<Message>): seq<Message>
  {
    if s == [] then []
    else SystemOnly(s[..|s| - 1]) + (if s[|s| - 1].role == System then [s[|s| - 1]] else [])
  }

  /** The non-system messages of `s`, in order. */
  function NonSystem(s: seq<Message>): seq<Message>
  {
    if s == [] then []
    else NonSystem(s[..|s| - 1]) + (if s[|s| - 1].role != System then [s[|s| - 1]] else [])
  }

  /** `idx` lists, in strictly increasing order, positions of `b` that spell out `a`. */
  ghost predicate Embeds(idx: seq<nat>, a: seq<Message>, b: seq<Message>)
  {
    |idx| == |a|
    && (forall k :: 0 <= k < |idx| ==> idx[k] < |b| && a[k] == b[idx[k]])
    && (forall k :: 0 <= k < |idx| - 1 ==> idx[k] < idx[k + 1])
  }

  /** `a` is an order-preserving subsequence of `b`. */
  ghost predicate IsSubsequence(a: seq<Message>, b: seq<Message>)
  {
    exists idx: seq<nat> :: Embeds(idx, a, b)
  }

  /**
    Counting back from the newest, the k-th message of `s` has role `newest`
    when k is even and the other turn role when k is odd.
   */
  ghost predicate AlternatesFrom(s: seq<Message>, newest: Role)
  {
    forall k :: 0 <= k < |s| ==> s[k].role == (if (|s| - 1 - k) % 2 == 0 then newest else Flip(newest))
  }

  /** The expected turn once the messages kept so far have been counted. */
  function TurnAfter(kept: seq<Message>, turn: Role): Role
  {
    if |NonSystem(kept)| % 2 == 0 then turn else Flip(turn)
  }

  // ---------------------------------------------------------------------
  // Lemmas.

  lemma SystemOnlyAppend(a: seq<Message>, b: seq<Message>)
    ensures SystemOnly(a + b) == SystemOnly(a) + SystemOnly(b)
    decreases |b|
  {
    if b == [] {
      assert a + b == a;
    } else {
      assert (a + b)[..|a + b| - 1] == a + b[..|b| - 1];
      SystemOnlyAppend(a, b[..|b| - 1]);
    }
  }

  lemma NonSystemAppend(a: seq<Message>, b: seq<Message>)
    ensures NonSystem(a + b) == NonSystem(a) + NonSystem(b)
    decreases |b|
  {
    if b == [] {
      assert a + b == a;
    } else {
      assert (a + b)[..|a + b| - 1] == a + b[..|b| - 1];
      NonSystemAppend(a, b[..|b| - 1]);
    }
  }

  lemma NonSystemSingle(m: Message)
    ensures NonSystem([m]) == if m.role == System then [] else [m]
  {
    assert [m][..0] == [];
  }

  lemma SystemOnlySingle(m: Message)
    ensures SystemOnly([m]) == if m.role == System then [m] else []
  {
    assert [m][..0] == [];
  }

  /** Every system message of the input survives, in its original relative order. */
  lemma {:induction false} FilterKeepsSystemMessages(ms: seq<Message>, turn: Role)
    ensures SystemOnly(FilterFrom(ms, turn)) == SystemOnly(ms)
    decreases |ms|
  {
    if ms != [] {
      var m := ms[|ms| - 1];
      var older := ms[..|ms| - 1];
      SystemOnlySingle(m);
      if m.role == System {
        FilterKeepsSystemMessages(older, turn);
        SystemOnlyAppend(FilterFrom(older, turn), [m]);
      } else if m.role != turn {
        FilterKeepsSystemMessages(older, turn);
      } else {
        FilterKeepsSystemMessages(older, Flip(turn));
        SystemOnlyAppend(FilterFrom(older, Flip(turn)), [m]);
      }
    }
  }

  lemma SubsequenceSnocRight(a: seq<Message>, b: seq<Message>, x: Message)
    requires IsSubsequence(a, b)
    ensures IsSubsequence(a, b + [x])
  {
    var idx: seq<nat> :| Embeds(idx, a, b);
    assert Embeds(idx, a, b + [x]);
  }

  lemma SubsequenceSnocBoth(a: seq<Message>, b: seq<Message>, x: Message)
    requires IsSubsequence(a, b)
    ensures IsSubsequence(a + [x], b + [x])
  {
    var idx: seq<nat> :| Embeds(idx, a, b);
    var idx': seq<nat> := idx + [|b|];
    assert Embeds(idx', a + [x], b + [x]);
  }

  /** The normaliser's output is an order-preserving subsequence of its input. */
  lemma {:induction false} FilterIsSubsequence(ms: seq<Message>, turn: Role)
    ensures IsSubsequence(FilterFrom(ms, turn), ms)
    ensures |FilterFrom(ms, turn)| <= |ms|
    decreases |ms|
  {
    if ms == [] {
      assert Embeds([], [], ms);
    } else {
      var m := ms[|ms| - 1];
      var older := ms[..|ms| - 1];
      assert ms == older + [m];
      if m.role == System {
        FilterIsSubsequence(older, turn);
        SubsequenceSnocBoth(FilterFrom(older, turn), older, m);
      } else if m.role != turn {
        FilterIsSubsequence(older, turn);
        SubsequenceSnocRight(FilterFrom(older, turn), older, m);
      } else {
        FilterIsSubsequence(older, Flip(turn));
        SubsequenceSnocBoth(FilterFrom(older, Flip(turn)), older, m);
      }
    }
  }

  lemma AlternatesSnoc(kept: seq<Message>, m: Message, turn: Role)
    requires IsTurnRole(turn) && m.role == turn
    requires AlternatesFrom(kept, Flip(turn))
    ensures AlternatesFrom(kept + [m], turn)
  {
    forall k | 0 <= k < |kept + [m]|
      ensures (kept + [m])[k].role == (if (|kept| - k) % 2 == 0 then turn else Flip(turn))
    {
      if k < |kept| {
        assert (kept + [m])[k] == kept[k];
        assert kept[k].role == (if (|kept| - 1 - k) % 2 == 0 then Flip(turn) else Flip(Flip(turn)));
      }
    }
  }

  /**
    The non-system messages kept by a scan that starts expecting `turn`
    alternate, the newest of them having role `turn`.
   */
  lemma {:induction false} FilterAlternates(ms: seq<Message>, turn: Role)
    requires IsTurnRole(turn)
    ensures AlternatesFrom(NonSystem(FilterFrom(ms, turn)), turn)
    decreases |ms|
  {
    if ms != [] {
      var m := ms[|ms| - 1];
      var older := ms[..|ms| - 1];
      if m.role == System {
        FilterAlternates(older, turn);
        assert NonSystem(FilterFrom(ms, turn)) == NonSystem(FilterFrom(older, turn)) by {
          NonSystemSingle(m);
          NonSystemAppend(FilterFrom(older, turn), [m]);
        }
      } else if m.role != turn {
        FilterAlternates(older, turn);
        assert FilterFrom(ms, turn) == FilterFrom(older, turn);
      } else {
        var kept := FilterFrom(older, Flip(turn));
        FilterAlternates(older, Flip(turn));
        assert NonSystem(FilterFrom(ms, turn)) == NonSystem(kept) + [m] by {
          NonSystemSingle(m);
          NonSystemAppend(kept, [m]);
        }
        AlternatesSnoc(NonSystem(kept), m, turn);
      }
    }
  }

  /**
    Alternation as the history is read oldest to newest: the kept non-system
    messages are user or assistant messages, no two neighbours share a role,
    and the newest one is a user message.
   */
  lemma FilteredAlternates(ms: seq<Message>)
    ensures var ns := NonSystem(Filtered(ms));
      (forall k :: 0 <= k < |ns| ==> IsTurnRole(ns[k].role))
      && (forall k :: 0 <= k < |ns| - 1 ==> ns[k].role != ns[k + 1].role)
      && (|ns| > 0 ==> ns[|ns| - 1].role == User)
  {
    var ns := NonSystem(Filtered(ms));
    FilterAlternates(ms, User);
    forall k | 0 <= k < |ns| - 1
      ensures ns[k].role != ns[k + 1].role
    {
      assert ns[k].role == (if (|ns| - 1 - k) % 2 == 0 then User else Assistant);
      assert ns[k + 1].role == (if (|ns| - 1 - (k + 1)) % 2 == 0 then User else Assistant);
    }
  }

  /** Two neighbouring non-system messages of `s` are neighbours among its non-system messages. */
  lemma NonSystemNeighbours(s: seq<Message>, k: nat)
    requires k + 1 < |s| && s[k].role != System && s[k + 1].role != System
    ensures var ns := NonSystem(s); var j := |NonSystem(s[..k])|;
      j + 1 < |ns| && ns[j] == s[k] && ns[j + 1] == s[k + 1]
  {
    var a, b, rest := s[..k], [s[k], s[k + 1]], s[k + 2..];
    assert s == a + b + rest;
    NonSystemAppend(a + b, rest);
    NonSystemAppend(a, b);
    assert b[..1] == [s[k]];
    NonSystemSingle(s[k]);
    assert NonSystem(b) == [s[k], s[k + 1]];
  }

  /** In the normalised history, two neighbouring non-system messages never share a role. */
  lemma FilteredNeighbours(ms: seq<Message>)
    ensures var f := Filtered(ms);
      forall k :: 0 <= k < |f| - 1 && f[k].role != System && f[k + 1].role != System ==>
        f[k].role != f[k + 1].role
  {
    var f := Filtered(ms);
    FilteredAlternates(ms);
    forall k | 0 <= k < |f| - 1 && f[k].role != System && f[k + 1].role != System
      ensures f[k].role != f[k + 1].role
    {
      NonSystemNeighbours(f, k);
    }
  }

  lemma NonSystemRoles(s: seq<Message>, m: Message)
    requires m in s && m.role != System
    ensures m in NonSystem(s)
    decreases |s|
  {
    var last := s[|s| - 1];
    var older := s[..|s| - 1];
    assert s == older + [last];
    if m != last {
      NonSystemRoles(older, m);
    }
  }

  /** The normaliser never keeps a message whose role is not user, assistant or system. */
  lemma FilteredRolesKnown(ms: seq<Message>)
    ensures forall m :: m in Filtered(ms) ==> m.role != Other
  {
    FilteredAlternates(ms);
    var ns := NonSystem(Filtered(ms));
    forall m | m in Filtered(ms)
      ensures m.role != Other
    {
      if m.role != System {
        NonSystemRoles(Filtered(ms), m);
        var k :| 0 <= k < |ns| && ns[k] == m;
        assert IsTurnRole(ns[k].role);
      }
    }
  }

  /** The newest message a scan expecting `turn` keeps, if any, is a system message or has role `turn`. */
  lemma {:induction false} NewestKept(ms: seq<Message>, turn: Role)
    ensures var f := FilterFrom(ms, turn); |f| > 0 ==> f[|f| - 1].role == turn || f[|f| - 1].role == System
    decreases |ms|
  {
    if ms != [] {
      var m := ms[|ms| - 1];
      var older := ms[..|ms| - 1];
      if m.role != System && m.role != turn {
        NewestKept(older, turn);
      }
    }
  }

  /** The newest message kept, if any, is a system or a user message. */
  lemma FilteredEndsWithUserOrSystem(ms: seq<Message>)
    ensures var f := Filtered(ms); |f| > 0 ==> f[|f| - 1].role == User || f[|f| - 1].role == System
  {
    NewestKept(ms, User);
  }

  /**
    The scan is a right fold: scanning `a + b` scans `b` first and then `a`,
    with the expected turn determined by how many non-system messages the
    scan of `b` kept.
   */
  lemma {:induction false} FilterSplit(a: seq<Message>, b: seq<Message>, turn: Role)
    requires IsTurnRole(turn)
    ensures FilterFrom(a + b, turn) == FilterFrom(a, TurnAfter(FilterFrom(b, turn), turn)) + FilterFrom(b, turn)
    decreases |b|
  {
    if b == [] {
      assert a + b == a;
    } else {
      var m := b[|b| - 1];
      var older := b[..|b| - 1];
      assert b == older + [m];
      assert a + b == (a + older) + [m];
      var next := if m.role != System && m.role == turn then Flip(turn) else turn;
      FilterSplit(a, older, next);
      FilterSplitStep(a, older, m, turn, next);
    }
  }

  /** Keeping one more non-system message flips the expected turn. */
  lemma TurnAfterKeep(kept: seq<Message>, m: Message, turn: Role)
    requires IsTurnRole(turn) && m.role != System
    ensures TurnAfter(kept + [m], turn) == TurnAfter(kept, Flip(turn))
  {
    NonSystemSingle(m);
    NonSystemAppend(kept, [m]);
    var n := |NonSystem(kept)|;
    assert |NonSystem(kept + [m])| == n + 1;
    assert ((n + 1) % 2 == 0) == (n % 2 != 0);
  }

  /** Keeping a system message leaves the expected turn as it was. */
  lemma TurnAfterSystem(kept: seq<Message>, m: Message, turn: Role)
    requires m.role == System
    ensures TurnAfter(kept + [m], turn) == TurnAfter(kept, turn)
  {
    NonSystemSingle(m);
    NonSystemAppend(kept, [m]);
  }

  /** The inductive step of `FilterSplit`: the scan of `older` went on expecting `next`. */
  lemma FilterSplitStep(a: seq<Message>, older: seq<Message>, m: Message, turn: Role, next: Role)
    requires IsTurnRole(turn)
    requires next == if m.role != System && m.role == turn then Flip(turn) else turn
    requires FilterFrom(a + older, next) == FilterFrom(a, TurnAfter(FilterFrom(older, next), next)) + FilterFrom(older, next)
    ensures FilterFrom((a + older) + [m], turn)
         == FilterFrom(a, TurnAfter(FilterFrom(older + [m], turn), turn)) + FilterFrom(older + [m], turn)
  {
    var kept := FilterFrom(older, next);
    var front := FilterFrom(a, TurnAfter(kept, next));
    FilterStep(a + older, m, turn);
    FilterStep(older, m, turn);
    if m.role == System {
      TurnAfterSystem(kept, m, turn);
      assert FilterFrom(older + [m], turn) == kept + [m];
      assert FilterFrom((a + older) + [m], turn) == (front + kept) + [m];
    } else if m.role == turn {
      TurnAfterKeep(kept, m, turn);
      assert FilterFrom(older + [m], turn) == kept + [m];
      assert FilterFrom((a + older) + [m], turn) == (front + kept) + [m];
    } else {
      assert FilterFrom(older + [m], turn) == kept;
    }
  }

  /**
    The messages kept from a newer part of the history are a suffix of
    what is kept from the whole history.
   */
  lemma FilteredSuffix(ms: seq<Message>, i: nat)
    requires i <= |ms|
    ensures var whole := Filtered(ms); var tail := Filtered(ms[i..]);
      |tail| <= |whole| && whole[|whole| - |tail|..] == tail
  {
    assert ms == ms[..i] + ms[i..];
    FilterSplit(ms[..i], ms[i..], User);
  }

  /**
    The keep/drop rule, message by message: with `newer` the messages already
    kept from the part of the history newer than position i, the expected
    turn there is user when `newer` holds an even number of non-system
    messages and assistant otherwise; message i is kept exactly when it is a
    system message or has the expected role, and a dropped message leaves the
    result, and so the expected turn, unchanged.
   */
  lemma FilterDecision(ms: seq<Message>, i: nat)
    requires i < |ms|
    ensures var newer := Filtered(ms[i + 1..]);
      var expected := if |NonSystem(newer)| % 2 == 0 then User else Assistant;
      Filtered(ms[i..]) == (if ms[i].role == System || ms[i].role == expected then [ms[i]] else []) + newer
  {
    assert ms[i..] == [ms[i]] + ms[i + 1..];
    FilterSplit([ms[i]], ms[i + 1..], User);
    var t := TurnAfter(Filtered(ms[i + 1..]), User);
    assert [ms[i]][..0] == [];
    assert FilterFrom([ms[i]], t) == (if ms[i].role == System || ms[i].role == t then [ms[i]] else []);
  }

  /** The example history user/assistant/user is kept whole. */
  lemma FilterExample()
    ensures Filtered([Message(User, "hi"), Message(Assistant, "hello"), Message(User, "bye")])
         == [Message(User, "hi"), Message(Assistant, "hello"), Message(User, "bye")]
  {
    var hi, hello, bye := Message(User, "hi"), Message(Assistant, "hello"), Message(User, "bye");
    FilterStep([], hi, Assistant);
    FilterStep([hi], hello, User);
    assert [hi] + [hello] == [hi, hello];
    FilterStep([hi, hello], bye, User);
    assert [hi, hello] + [bye] == [hi, hello, bye];
  }
}
