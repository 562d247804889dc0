/**
 What placeholder evaluation guarantees over any finite lookup. It terminates
 because every function here does; Plain is the evaluator that keeps no visited
 keys and may therefore run forever, given as its finite approximations.
 */
module ConfLaws {
  import opened Wrappers
  import opened ConfModel

  // ---------------------------------------------------------------- the visited set

  /** Fewer keys in progress can only turn a failure into a success. */
  lemma {:induction false} FewerVisited(text: string, lookup: map<string, string>, v: set<string>, u: set<string>)
    requires u <= v && Resolve(text, lookup, v).Ok?
    ensures Resolve(text, lookup, u) == Resolve(text, lookup, v)
    decreases lookup.Keys - v, 2 * |text|
  {
    if text == "" {
    } else if StartsEscaped(text) {
      FewerVisited(text[3..], lookup, v, u);
    } else if StartsWithPrefix(text) {
      var closing := Closing(text);
      if closing.Some? {
        FewerVisitedPlaceholder(text[2..closing.value], lookup, v, u);
        FewerVisited(text[closing.value + 1..], lookup, v, u);
      }
    } else {
      FewerVisited(text[1..], lookup, v, u);
    }
  }

  lemma {:induction false} FewerVisitedPlaceholder(
    content: string, lookup: map<string, string>, v: set<string>, u: set<string>)
    requires u <= v && ResolvePlaceholder(content, lookup, v).Ok?
    ensures ResolvePlaceholder(content, lookup, u) == ResolvePlaceholder(content, lookup, v)
    decreases lookup.Keys - v, 2 * |content| + 1
  {
    var pieces := Split(content);
    FewerVisited(pieces.key, lookup, v, u);
    var key := Resolve(pieces.key, lookup, v).value;
    if key in lookup {
      assert key in lookup.Keys - v;
      FewerVisited(lookup[key], lookup, v + {key}, u + {key});
    } else if pieces.fallback.Some? {
      FewerVisited(pieces.fallback.value, lookup, v, u);
    }
  }

  /** A successful result does not depend on which keys were in progress. */
  lemma SuccessIsIndependent(text: string, lookup: map<string, string>, v: set<string>, u: set<string>)
    requires Resolve(text, lookup, v).Ok? && Resolve(text, lookup, u).Ok?
    ensures Resolve(text, lookup, v) == Resolve(text, lookup, u)
  {
    FewerVisited(text, lookup, v, v * u);
    FewerVisited(text, lookup, u, v * u);
  }

  // ---------------------------------------------------------------- cycles

  /** Evaluation that follows at most this many values deep; None if that is not enough. */
  function Plain(text: string, lookup: map<string, string>, fuel: nat): Option<Resolution>
    decreases fuel, 2 * |text|
  {
    if text == "" then Some(Ok(""))
    else if StartsEscaped(text) then
      var rest := Plain(text[3..], lookup, fuel);
      if rest.None? then None else Some(Prepend(PREFIX, rest.value))
    else if StartsWithPrefix(text) then
      var closing := Closing(text);
      if closing.None? then Some(Ok(text))
      else
        var first := PlainPlaceholder(text[2..closing.value], lookup, fuel);
        if first.None? || first.value.Err? then first
        else
          var rest := Plain(text[closing.value + 1..], lookup, fuel);
          if rest.None? then None else Some(Joined(first.value, rest.value))
    else
      var rest := Plain(text[1..], lookup, fuel);
      if rest.None? then None else Some(Prepend([text[0]], rest.value))
  }

  function PlainPlaceholder(content: string, lookup: map<string, string>, fuel: nat): Option<Resolution>
    decreases fuel, 2 * |content| + 1
  {
    var pieces := Split(content);
    var key := Plain(pieces.key, lookup, fuel);
    if key.None? || key.value.Err? then key
    else if key.value.value in lookup then
      (if fuel == 0 then None else Plain(lookup[key.value.value], lookup, fuel - 1))
    else if pieces.fallback.Some? then Plain(pieces.fallback.value, lookup, fuel)
    else Some(Err(Unresolved(key.value.value)))
  }

  lemma {:induction false} MoreFuel(text: string, lookup: map<string, string>, fuel: nat, more: nat)
    requires fuel <= more && Plain(text, lookup, fuel).Some?
    ensures Plain(text, lookup, more) == Plain(text, lookup, fuel)
    decreases fuel, 2 * |text|
  {
    if text == "" {
    } else if StartsEscaped(text) {
      MoreFuel(text[3..], lookup, fuel, more);
    } else if StartsWithPrefix(text) {
      var closing := Closing(text);
      if closing.Some? {
        MoreFuelPlaceholder(text[2..closing.value], lookup, fuel, more);
        if Plain(text[closing.value + 1..], lookup, fuel).Some? {
          MoreFuel(text[closing.value + 1..], lookup, fuel, more);
        }
      }
    } else {
      MoreFuel(text[1..], lookup, fuel, more);
    }
  }

  lemma {:induction false} MoreFuelPlaceholder(content: string, lookup: map<string, string>, fuel: nat, more: nat)
    requires fuel <= more && PlainPlaceholder(content, lookup, fuel).Some?
    ensures PlainPlaceholder(content, lookup, more) == PlainPlaceholder(content, lookup, fuel)
    decreases fuel, 2 * |content| + 1
  {
    var pieces := Split(content);
    MoreFuel(pieces.key, lookup, fuel, more);
    var key := Plain(pieces.key, lookup, fuel).value;
    if key.Ok? {
      if key.value in lookup {
        MoreFuel(lookup[key.value], lookup, fuel - 1, more - 1);
      } else if pieces.fallback.Some? {
        MoreFuel(pieces.fallback.value, lookup, fuel, more);
      }
    }
  }

  predicate IsCycle(r: Resolution) {
    r.Err? && r.error.Circular?
  }

  lemma OneLessUnvisited(lookup: map<string, string>, v: set<string>, key: string)
    requires key in lookup && key !in v
    ensures lookup.Keys - (v + {key}) < lookup.Keys - v
    ensures |lookup.Keys - (v + {key})| == |lookup.Keys - v| - 1
  {
    assert key in lookup.Keys - v;
    assert lookup.Keys - (v + {key}) == (lookup.Keys - v) - {key};
  }

  /** What meets no cycle is reached by following each unvisited key at most once. */
  lemma {:induction false} NoCycleIsPlain(text: string, lookup: map<string, string>, v: set<string>)
    requires !IsCycle(Resolve(text, lookup, v))
    ensures Plain(text, lookup, |lookup.Keys - v|) == Some(Resolve(text, lookup, v))
    decreases lookup.Keys - v, 2 * |text|
  {
    if text == "" {
    } else if StartsEscaped(text) {
      NoCycleIsPlain(text[3..], lookup, v);
    } else if StartsWithPrefix(text) {
      var closing := Closing(text);
      if closing.Some? {
        NoCyclePlaceholder(text[2..closing.value], lookup, v);
        if ResolvePlaceholder(text[2..closing.value], lookup, v).Ok? {
          NoCycleIsPlain(text[closing.value + 1..], lookup, v);
        }
      }
    } else {
      NoCycleIsPlain(text[1..], lookup, v);
    }
  }

  lemma {:induction false} NoCyclePlaceholder(content: string, lookup: map<string, string>, v: set<string>)
    requires !IsCycle(ResolvePlaceholder(content, lookup, v))
    ensures PlainPlaceholder(content, lookup, |lookup.Keys - v|) == Some(ResolvePlaceholder(content, lookup, v))
    decreases lookup.Keys - v, 2 * |content| + 1
  {
    var pieces := Split(content);
    NoCycleIsPlain(pieces.key, lookup, v);
    var key := Resolve(pieces.key, lookup, v);
    if key.Ok? {
      if key.value in lookup {
        OneLessUnvisited(lookup, v, key.value);
        NoCycleIsPlain(lookup[key.value], lookup, v + {key.value});
      } else if pieces.fallback.Some? {
        NoCycleIsPlain(pieces.fallback.value, lookup, v);
      }
    }
  }

  /** Every key in progress needs at least this much fuel for its own value. */
  ghost predicate NeedMore(lookup: map<string, string>, v: set<string>, fuel: nat) {
    forall key | key in v && key in lookup :: forall less: nat | less < fuel :: Plain(lookup[key], lookup, less).None?
  }

  /** The least fuel with which the evaluation ends. */
  function LeastFuel(text: string, lookup: map<string, string>, fuel: nat): (least: nat)
    requires Plain(text, lookup, fuel).Some?
    ensures least <= fuel && Plain(text, lookup, least).Some?
    ensures least == 0 || Plain(text, lookup, least - 1).None?
    decreases fuel
  {
    if fuel == 0 || Plain(text, lookup, fuel - 1).None? then fuel else LeastFuel(text, lookup, fuel - 1)
  }

  /** An evaluation that ends never meets a key in progress: the value of a key needs less fuel than any around it. */
  lemma {:induction false} PlainMeetsNoCycle(text: string, lookup: map<string, string>, v: set<string>, fuel: nat)
    requires Plain(text, lookup, fuel).Some? && NeedMore(lookup, v, fuel)
    ensures Plain(text, lookup, fuel) == Some(Resolve(text, lookup, v))
    decreases fuel, 2 * |text|
  {
    if text == "" {
    } else if StartsEscaped(text) {
      PlainMeetsNoCycle(text[3..], lookup, v, fuel);
    } else if StartsWithPrefix(text) {
      var closing := Closing(text);
      if closing.Some? {
        PlainPlaceholderMeetsNoCycle(text[2..closing.value], lookup, v, fuel);
        if PlainPlaceholder(text[2..closing.value], lookup, fuel).value.Ok? {
          PlainMeetsNoCycle(text[closing.value + 1..], lookup, v, fuel);
        }
      }
    } else {
      PlainMeetsNoCycle(text[1..], lookup, v, fuel);
    }
  }

  lemma {:induction false} PlainPlaceholderMeetsNoCycle(
    content: string, lookup: map<string, string>, v: set<string>, fuel: nat)
    requires PlainPlaceholder(content, lookup, fuel).Some? && NeedMore(lookup, v, fuel)
    ensures PlainPlaceholder(content, lookup, fuel) == Some(ResolvePlaceholder(content, lookup, v))
    decreases fuel, 2 * |content| + 1
  {
    var pieces := Split(content);
    PlainMeetsNoCycle(pieces.key, lookup, v, fuel);
    var key := Plain(pieces.key, lookup, fuel).value;
    if key.Ok? {
      if key.value in lookup {
        var value := lookup[key.value];
        assert Plain(value, lookup, fuel - 1).Some?;
        assert key.value !in v;
        var least := LeastFuel(value, lookup, fuel - 1);
        LeastIsNeeded(lookup, v, key.value, fuel);
        PlainMeetsNoCycle(value, lookup, v + {key.value}, least);
        MoreFuel(value, lookup, least, fuel - 1);
      } else if pieces.fallback.Some? {
        PlainMeetsNoCycle(pieces.fallback.value, lookup, v, fuel);
      }
    }
  }

  lemma LeastIsNeeded(lookup: map<string, string>, v: set<string>, key: string, fuel: nat)
    requires fuel > 0 && key in lookup && Plain(lookup[key], lookup, fuel - 1).Some? && NeedMore(lookup, v, fuel)
    ensures NeedMore(lookup, v + {key}, LeastFuel(lookup[key], lookup, fuel - 1))
  {
    var least := LeastFuel(lookup[key], lookup, fuel - 1);
    forall less: nat | less < least ensures Plain(lookup[key], lookup, less).None? {
      if Plain(lookup[key], lookup, less).Some? {
        MoreFuel(lookup[key], lookup, less, least - 1);
      }
    }
  }

  /**
   Cycle detection is exact: a resolution reports a cycle exactly when following
   the references without memory would never end, and otherwise gives the answer
   that this would give.
   */
  lemma CyclesAreExact(text: string, lookup: map<string, string>)
    ensures IsCycle(Resolve(text, lookup, {})) <==> forall fuel: nat :: Plain(text, lookup, fuel).None?
    ensures !IsCycle(Resolve(text, lookup, {})) ==>
              Plain(text, lookup, |lookup.Keys|) == Some(Resolve(text, lookup, {}))
    ensures forall fuel: nat | Plain(text, lookup, fuel).Some? ::
              Plain(text, lookup, fuel) == Some(Resolve(text, lookup, {}))
  {
    forall fuel: nat | Plain(text, lookup, fuel).Some?
      ensures Plain(text, lookup, fuel) == Some(Resolve(text, lookup, {})) && !IsCycle(Resolve(text, lookup, {}))
    {
      PlainMeetsNoCycle(text, lookup, {}, fuel);
      PlainHasNoCycle(text, lookup, fuel);
    }
    if !IsCycle(Resolve(text, lookup, {})) {
      NoCycleIsPlain(text, lookup, {});
      assert lookup.Keys - {} == lookup.Keys;
    }
  }

  lemma {:induction false} PlainHasNoCycle(text: string, lookup: map<string, string>, fuel: nat)
    requires Plain(text, lookup, fuel).Some?
    ensures !IsCycle(Plain(text, lookup, fuel).value)
    decreases fuel, 2 * |text|
  {
    if text == "" {
    } else if StartsEscaped(text) {
      PlainHasNoCycle(text[3..], lookup, fuel);
    } else if StartsWithPrefix(text) {
      var closing := Closing(text);
      if closing.Some? {
        PlainPlaceholderHasNoCycle(text[2..closing.value], lookup, fuel);
        if PlainPlaceholder(text[2..closing.value], lookup, fuel).value.Ok? {
          PlainHasNoCycle(text[closing.value + 1..], lookup, fuel);
        }
      }
    } else {
      PlainHasNoCycle(text[1..], lookup, fuel);
    }
  }

  lemma {:induction false} PlainPlaceholderHasNoCycle(content: string, lookup: map<string, string>, fuel: nat)
    requires PlainPlaceholder(content, lookup, fuel).Some?
    ensures !IsCycle(PlainPlaceholder(content, lookup, fuel).value)
    decreases fuel, 2 * |content| + 1
  {
    var pieces := Split(content);
    PlainHasNoCycle(pieces.key, lookup, fuel);
    var key := Plain(pieces.key, lookup, fuel).value;
    if key.Ok? {
      if key.value in lookup {
        PlainHasNoCycle(lookup[key.value], lookup, fuel - 1);
      } else if pieces.fallback.Some? {
        PlainHasNoCycle(pieces.fallback.value, lookup, fuel);
      }
    }
  }

  // ---------------------------------------------------------------- braces

  /** The brace depth after a text, or None once a brace closes that none opened. */
  function Depth(text: string, start: nat): Option<nat> {
    if text == "" then Some(start)
    else if text[0] == '{' then Depth(text[1..], start + 1)
    else if text[0] == '}' then (if start == 0 then None else Depth(text[1..], start - 1))
    else Depth(text[1..], start)
  }

  predicate Balanced(text: string) {
    Depth(text, 0) == Some(0)
  }

  lemma {:induction false} DepthOfConcatenation(a: string, b: string, start: nat)
    ensures Depth(a + b, start) == if Depth(a, start).Some? then Depth(b, Depth(a, start).value) else None
  {
    if a == "" {
      assert a + b == b;
    } else {
      assert (a + b)[1..] == a[1..] + b;
      if a[0] == '{' {
        DepthOfConcatenation(a[1..], b, start + 1);
      } else if a[0] == '}' {
        if start > 0 {
          DepthOfConcatenation(a[1..], b, start - 1);
        }
      } else {
        DepthOfConcatenation(a[1..], b, start);
      }
    }
  }

  /** The scan for the closing brace stops where the depth first comes back to zero. */
  lemma {:induction false} ContentDepth(text: string, index: nat, depth: nat)
    requires index <= |text| && ClosingFrom(text, index, depth).Some?
    ensures Depth(text[index..ClosingFrom(text, index, depth).value], depth) == Some(0)
    decreases |text| - index
  {
    var closing := ClosingFrom(text, index, depth).value;
    if closing > index {
      assert text[index..closing][1..] == text[index + 1..closing];
      if text[index] == '{' {
        ContentDepth(text, index + 1, depth + 1);
      } else if text[index] == '}' {
        ContentDepth(text, index + 1, depth - 1);
      } else {
        ContentDepth(text, index + 1, depth);
      }
    }
  }

  lemma ColonDepth(depth: nat)
    ensures Depth(":", depth) == Some(depth) && Depth("\\:", depth) == Some(depth)
  {
    assert ":"[1..] == "" && "\\:"[1..] == ":";
    assert Depth("", depth) == Some(depth);
    assert Depth(":", depth) == Some(depth);
  }

  /** The key ends at depth zero; the rest, if any, follows a colon there. */
  lemma {:induction false} SplitDepth(content: string, index: nat, depth: nat)
    requires index <= |content| && Depth(content[index..], depth) == Some(0)
    ensures var pieces := SplitFrom(content, index, depth);
            && Depth(pieces.key, depth) == Some(0)
            && (pieces.fallback.Some? ==> Balanced(pieces.fallback.value))
    decreases |content| - index
  {
    if index < |content| {
      assert content[index..][1..] == content[index + 1..];
      var pieces := SplitFrom(content, index, depth);
      if EscapedColon(content, index) {
        assert content[index + 1..][1..] == content[index + 2..];
        SplitDepth(content, index + 2, depth);
        var written := if depth > 0 then "\\:" else ":";
        ColonDepth(depth);
        DepthOfConcatenation(written, SplitFrom(content, index + 2, depth).key, depth);
      } else if content[index] == ':' && depth == 0 {
      } else {
        var moved := Moved(content[index], depth);
        SplitDepth(content, index + 1, moved);
        assert pieces.key[1..] == SplitFrom(content, index + 1, moved).key;
      }
    }
  }

  /**
   The pieces of a placeholder stay balanced: what stands between its ${ and the
   brace that closes it, its key, and its default.
   */
  lemma PiecesAreBalanced(text: string)
    requires StartsWithPrefix(text) && Closing(text).Some?
    ensures var content := text[2..Closing(text).value];
            && Balanced(content) && Balanced(Split(content).key)
            && (Split(content).fallback.Some? ==> Balanced(Split(content).fallback.value))
  {
    ContentDepth(text, 2, 0);
    var content := text[2..Closing(text).value];
    assert content[0..] == content;
    SplitDepth(content, 0, 0);
  }

  lemma {:induction false} BalancedCloses(text: string, index: nat, depth: nat, rest: string)
    requires index <= |text| && Depth(text[index..], depth) == Some(0)
    ensures ClosingFrom(text + "}" + rest, index, depth) == Some(|text|)
    decreases |text| - index
  {
    var whole := text + "}" + rest;
    if index == |text| {
      assert text[index..] == "";
    } else {
      assert text[index..][1..] == text[index + 1..] && whole[index] == text[index];
      if text[index] == '{' {
        BalancedCloses(text, index + 1, depth + 1, rest);
      } else if text[index] == '}' {
        BalancedCloses(text, index + 1, depth - 1, rest);
      } else {
        BalancedCloses(text, index + 1, depth, rest);
      }
    }
  }

  /** The other direction: a balanced content between ${ and } is read back whole, whatever follows. */
  lemma BalancedContentIsRead(content: string, rest: string)
    requires Balanced(content)
    ensures StartsWithPrefix(PREFIX + content + "}" + rest)
    ensures Closing(PREFIX + content + "}" + rest) == Some(|content| + 2)
  {
    assert (PREFIX + content)[2..] == content;
    BalancedCloses(PREFIX + content, 2, 0, rest);
  }

  // ---------------------------------------------------------------- escapes

  function Moved(character: char, depth: nat): nat {
    if character == '{' then depth + 1 else if character == '}' && depth > 0 then depth - 1 else depth
  }

  /** A key written so that no colon of it separates: colons outside braces are escaped. */
  function Protect(key: string, depth: nat): string {
    if key == "" then ""
    else if key[0] == ':' && depth == 0 then "\\:" + Protect(key[1..], depth)
    else
      [key[0]] + Protect(key[1..], Moved(key[0], depth))
  }

  /** The split of a suffix is the split from its first index. */
  lemma {:induction false} SplitOfSuffix(content: string, start: nat, index: nat, depth: int)
    requires start <= index <= |content|
    ensures SplitFrom(content, index, depth) == SplitFrom(content[start..], index - start, depth)
    decreases |content| - index
  {
    if index < |content| {
      assert content[start..][index - start] == content[index];
      if EscapedColon(content, index) {
        SplitOfSuffix(content, start, index + 2, depth);
      } else if !(content[index] == ':' && depth == 0) {
        SplitOfSuffix(content, start, index + 1,
                      if content[index] == '{' then depth + 1 else if content[index] == '}' then depth - 1 else depth);
      } else {
        assert content[start..][index - start + 1..] == content[index + 1..];
      }
    }
  }

  function Tail(fallback: Option<string>): string {
    if fallback.Some? then ":" + fallback.value else ""
  }

  lemma ProtectColon(key: string, tail: string)
    requires key != "" && key[0] == ':'
    ensures Protect(key, 0) + tail == "\\:" + (Protect(key[1..], 0) + tail)
    ensures Depth(key[1..], 0) == Depth(key, 0) && key == ":" + key[1..]
  {
  }

  lemma ProtectNested(key: string, depth: nat, tail: string)
    requires EscapedColon(key, 0) && depth > 0
    ensures Protect(key, depth) + tail == "\\:" + (Protect(key[2..], depth) + tail)
    ensures Depth(key[2..], depth) == Depth(key, depth) && key == "\\:" + key[2..]
  {
    var rest := key[1..];
    assert rest[1..] == key[2..];
    assert Protect(key, depth) == [key[0]] + Protect(rest, depth);
    assert Protect(rest, depth) == [rest[0]] + Protect(key[2..], depth);
    assert Depth(key, depth) == Depth(rest, depth) == Depth(key[2..], depth);
  }

  lemma ProtectOther(key: string, depth: nat, tail: string)
    requires key != "" && !(key[0] == ':' && depth == 0) && Depth(key, depth).Some?
    ensures Protect(key, depth) + tail == [key[0]] + (Protect(key[1..], Moved(key[0], depth)) + tail)
    ensures Depth(key[1..], Moved(key[0], depth)) == Depth(key, depth) && key == [key[0]] + key[1..]
    ensures key[0] == '}' ==> depth > 0
  {
    DepthOther(key, depth);
    TextOther(key, depth);
    hide Protect, Depth, Moved;
    Regrouped([key[0]], Protect(key[1..], Moved(key[0], depth)), tail);
  }

  lemma Regrouped(a: string, b: string, c: string)
    ensures a + b + c == a + (b + c)
  {
  }

  lemma TextOther(key: string, depth: nat)
    requires key != "" && !(key[0] == ':' && depth == 0)
    ensures Protect(key, depth) == [key[0]] + Protect(key[1..], Moved(key[0], depth))
  {
  }

  lemma DepthOther(key: string, depth: nat)
    requires key != "" && !(key[0] == ':' && depth == 0) && Depth(key, depth).Some?
    ensures Depth(key[1..], Moved(key[0], depth)) == Depth(key, depth) && key == [key[0]] + key[1..]
    ensures key[0] == '}' ==> depth > 0
  {
  }

  lemma {:induction false} ProtectedSplit(key: string, depth: nat, fallback: Option<string>)
    requires Depth(key, depth) == Some(0)
    requires fallback.Some? && key != "" ==> key[|key| - 1] != '\\'
    ensures SplitFrom(Protect(key, depth) + Tail(fallback), 0, depth) == Pieces(key, fallback)
    decreases |key|
  {
    var content := Protect(key, depth) + Tail(fallback);
    if key == "" {
      assert content == Tail(fallback);
      if fallback.Some? {
        assert content[1..] == fallback.value;
      }
    } else {
      hide Protect, Depth, SplitFrom, Tail;
      if key[0] == ':' && depth == 0 {
        ProtectColon(key, Tail(fallback));
        ProtectedSplit(key[1..], depth, fallback);
        EscapedStep(content, Protect(key[1..], depth) + Tail(fallback), depth);
      } else if EscapedColon(key, 0) && depth > 0 {
        ProtectNested(key, depth, Tail(fallback));
        ProtectedSplit(key[2..], depth, fallback);
        EscapedStep(content, Protect(key[2..], depth) + Tail(fallback), depth);
      } else {
        ProtectOther(key, depth, Tail(fallback));
        ProtectedSplit(key[1..], Moved(key[0], depth), fallback);
        ProtectedHead(key, depth, fallback);
        PlainStep(content, key[0], Protect(key[1..], Moved(key[0], depth)) + Tail(fallback), depth);
      }
    }
  }

  lemma EscapedStep(content: string, rest: string, depth: nat)
    requires content == "\\:" + rest
    ensures SplitFrom(content, 0, depth)
         == Pieces((if depth > 0 then "\\:" else ":") + SplitFrom(rest, 0, depth).key,
                   SplitFrom(rest, 0, depth).fallback)
  {
    assert content[2..] == rest;
    SplitOfSuffix(content, 2, 2, depth);
  }

  lemma PlainStep(content: string, character: char, rest: string, depth: nat)
    requires content == [character] + rest && !EscapedColon(content, 0) && !(character == ':' && depth == 0)
    requires character == '}' ==> depth > 0
    ensures var split := SplitFrom(rest, 0, Moved(character, depth));
            SplitFrom(content, 0, depth) == Pieces([character] + split.key, split.fallback)
  {
    assert content[1..] == rest;
    SplitOfSuffix(content, 1, 1, Moved(character, depth));
  }

  /** Protecting never turns a character of the key into an escape. */
  lemma ProtectedHead(key: string, depth: nat, fallback: Option<string>)
    requires key != "" && !(key[0] == ':' && depth == 0)
    requires fallback.Some? ==> key[|key| - 1] != '\\'
    ensures depth == 0 ==> !EscapedColon(Protect(key, depth) + Tail(fallback), 0)
    ensures depth > 0 && EscapedColon(Protect(key, depth) + Tail(fallback), 0) ==>
              |key| >= 2 && key[0] == '\\' && key[1] == ':'
  {
    if key[0] == '\\' && |key| >= 2 {
      assert Protect(key, depth) == [key[0]] + Protect(key[1..], depth);
      assert Protect(key[1..], depth)[0] == if key[1] == ':' && depth == 0 then '\\' else key[1];
    }
  }

  predicate EndsInBackslash(key: string) {
    key != "" && key[|key| - 1] == '\\'
  }

  /** A cut is never behind a backslash: there the colon would be escaped. */
  lemma {:induction false} CutKeyEnds(content: string, index: nat, depth: int)
    requires index <= |content| && SplitFrom(content, index, depth).fallback.Some?
    ensures !EndsInBackslash(SplitFrom(content, index, depth).key)
    ensures SplitFrom(content, index, depth).key == "" ==> index < |content| && content[index] == ':'
    decreases |content| - index
  {
    if EscapedColon(content, index) {
      CutKeyEnds(content, index + 2, depth);
    } else if !(content[index] == ':' && depth == 0) {
      var moved := if content[index] == '{' then depth + 1 else if content[index] == '}' then depth - 1 else depth;
      CutKeyEnds(content, index + 1, moved);
    }
  }

  /**
   Any balanced key and any default can be written and are split back, the cut
   being at the first colon that is neither escaped nor inside braces, exactly
   unless the key ends in a backslash and has a default: no content is split so.
   */
  lemma SplitRoundTrip(key: string, fallback: Option<string>)
    requires Balanced(key)
    ensures fallback.Some? && EndsInBackslash(key) ==> forall content :: Split(content) != Pieces(key, fallback)
    ensures !(fallback.Some? && EndsInBackslash(key)) ==>
              Split(Protect(key, 0) + Tail(fallback)) == Pieces(key, fallback)
  {
    if fallback.Some? && EndsInBackslash(key) {
      forall content ensures Split(content) != Pieces(key, fallback) {
        if Split(content).fallback.Some? {
          CutKeyEnds(content, 0, 0);
        }
      }
    } else {
      ProtectedSplit(key, 0, fallback);
    }
  }

  /** Each ${ with a backslash before it. */
  function Escape(text: string): string {
    if text == "" then ""
    else if StartsWithPrefix(text) then "\\${" + Escape(text[2..])
    else [text[0]] + Escape(text[1..])
  }

  lemma EscapeHasNoPrefix(text: string)
    ensures !StartsWithPrefix(Escape(text))
    ensures text != "" && text[0] == '$' && !StartsWithPrefix(text) && |text| >= 2 ==> Escape(text[1..])[0] != '{'
  {
    if text != "" && !StartsWithPrefix(text) && text[0] == '$' && |text| >= 2 {
      assert text[1..][0] == text[1];
    }
  }

  /** Any text with each ${ escaped resolves back to itself, whatever the lookup and the keys in progress. */
  lemma {:induction false} EscapedTextIsLiteral(text: string, lookup: map<string, string>, v: set<string>)
    ensures Resolve(Escape(text), lookup, v) == Ok(text)
  {
    if text != "" {
      EscapeHasNoPrefix(text);
      if StartsWithPrefix(text) {
        EscapedTextIsLiteral(text[2..], lookup, v);
        assert Escape(text)[3..] == Escape(text[2..]);
        assert StartsEscaped(Escape(text));
        assert text == PREFIX + text[2..];
      } else {
        EscapedTextIsLiteral(text[1..], lookup, v);
        EscapeHasNoPrefix(text[1..]);
        assert Escape(text)[1..] == Escape(text[1..]);
        assert !StartsEscaped(Escape(text));
        assert text == [text[0]] + text[1..];
      }
    }
  }
}
