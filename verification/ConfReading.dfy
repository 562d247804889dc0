/**
 What a text with placeholders resolves to, read from left to right: the pieces of
 the text in their order, each placeholder replaced by its value.
 */
module ConfReading {
  import opened Wrappers
  import opened ConfModel
  import opened ConfLaws

  /** Every placeholder that opens in the text closes in it. */
  predicate Whole(text: string) {
    if text == "" then true
    else if StartsEscaped(text) then Whole(text[3..])
    else if StartsWithPrefix(text) then Closing(text).Some? && Whole(text[Closing(text).value + 1..])
    else Whole(text[1..])
  }

  /** Put one behind the other, the texts do not form a prefix or an escape across the joint. */
  predicate Apart(a: string, b: string) {
    && (a != "" && a[|a| - 1] == '\\' ==> !StartsWithPrefix(b))
    && (a != "" && a[|a| - 1] == '$' ==> b == "" || b[0] != '{')
  }

  /** First one, then the other: the texts in this order, or the first error. */
  predicate InSequence(whole: Resolution, first: Resolution, second: Resolution) {
    && (first.Err? ==> whole == first)
    && (first.Ok? && second.Err? ==> whole == second)
    && (first.Ok? && second.Ok? ==> whole == Ok(first.value + second.value))
  }

  lemma Regrouped(a: string, b: string, c: string)
    ensures a + b + c == a + (b + c)
  {
  }

  /** What stands in front stays in front. */
  lemma Prepended(head: string, whole: Resolution, first: Resolution, second: Resolution)
    requires InSequence(whole, first, second)
    ensures InSequence(Prepend(head, whole), Prepend(head, first), second)
  {
    if first.Ok? && second.Ok? {
      Regrouped(head, first.value, second.value);
    }
  }

  lemma PlacedBefore(value: Resolution, whole: Resolution, first: Resolution, second: Resolution)
    requires InSequence(whole, first, second)
    ensures InSequence(Joined(value, whole), Joined(value, first), second)
  {
    if value.Ok? {
      Prepended(value.value, whole, first, second);
    }
  }

  lemma {:induction false} ClosingStays(a: string, b: string, index: nat, depth: nat)
    requires index <= |a| && ClosingFrom(a, index, depth).Some?
    ensures ClosingFrom(a + b, index, depth) == ClosingFrom(a, index, depth)
    decreases |a| - index
  {
    assert (a + b)[index] == a[index];
    if a[index] == '{' {
      ClosingStays(a, b, index + 1, depth + 1);
    } else if a[index] == '}' {
      if depth > 0 {
        ClosingStays(a, b, index + 1, depth - 1);
      }
    } else {
      ClosingStays(a, b, index + 1, depth);
    }
  }

  lemma StartsAlike(a: string, b: string)
    requires a != "" && Apart(a, b)
    ensures StartsEscaped(a + b) <==> StartsEscaped(a)
    ensures !StartsEscaped(a) ==> (StartsWithPrefix(a + b) <==> StartsWithPrefix(a))
  {
    assert |a| >= 2 ==> (a + b)[1..] == a[1..] + b;
    assert |a| == 1 ==> (a + b)[1..] == b;
  }

  /** How the first piece of a text is resolved. */
  lemma FirstPiece(text: string, lookup: map<string, string>, v: set<string>)
    ensures Resolve("", lookup, v) == Ok("")
    ensures StartsEscaped(text) ==> Resolve(text, lookup, v) == Prepend(PREFIX, Resolve(text[3..], lookup, v))
    ensures !StartsEscaped(text) && StartsWithPrefix(text) && Closing(text).Some? ==>
              Resolve(text, lookup, v)
              == Joined(ResolvePlaceholder(text[2..Closing(text).value], lookup, v),
                        Resolve(text[Closing(text).value + 1..], lookup, v))
    ensures text != "" && !StartsEscaped(text) && !StartsWithPrefix(text) ==>
              Resolve(text, lookup, v) == Prepend([text[0]], Resolve(text[1..], lookup, v))
  {
    hide ResolvePlaceholder, ClosingFrom;
  }

  lemma NothingBefore(b: Resolution)
    ensures InSequence(b, Ok(""), b)
  {
    if b.Ok? {
      assert "" + b.value == b.value;
    }
  }

  /** A text whose placeholders all close is resolved before whatever follows it. */
  lemma {:induction false} ConcatenationResolves(
    a: string, b: string, lookup: map<string, string>, v: set<string>)
    requires Whole(a) && Apart(a, b)
    ensures InSequence(Resolve(a + b, lookup, v), Resolve(a, lookup, v), Resolve(b, lookup, v))
    decreases |a|, 1
  {
    FirstPiece(a, lookup, v);
    FirstPiece(a + b, lookup, v);
    hide Resolve, ResolvePlaceholder, InSequence, Prepend, Joined;
    if a == "" {
      assert a + b == b;
      NothingBefore(Resolve(b, lookup, v));
    } else {
      StartsAlike(a, b);
      if StartsEscaped(a) {
        assert (a + b)[3..] == a[3..] + b;
        ConcatenationResolves(a[3..], b, lookup, v);
        Prepended(PREFIX, Resolve(a[3..] + b, lookup, v), Resolve(a[3..], lookup, v), Resolve(b, lookup, v));
      } else if StartsWithPrefix(a) {
        PlaceholderFirst(a, b, lookup, v);
      } else {
        assert (a + b)[1..] == a[1..] + b;
        ConcatenationResolves(a[1..], b, lookup, v);
        Prepended([a[0]], Resolve(a[1..] + b, lookup, v), Resolve(a[1..], lookup, v), Resolve(b, lookup, v));
      }
    }
  }

  lemma {:induction false} PlaceholderFirst(a: string, b: string, lookup: map<string, string>, v: set<string>)
    requires Whole(a) && Apart(a, b) && StartsWithPrefix(a)
    ensures InSequence(Resolve(a + b, lookup, v), Resolve(a, lookup, v), Resolve(b, lookup, v))
    decreases |a|, 0
  {
    FirstPiece(a, lookup, v);
    FirstPiece(a + b, lookup, v);
    StartsAlike(a, b);
    var closing := Closing(a).value;
    ClosingStays(a, b, 2, 0);
    assert (a + b)[2..closing] == a[2..closing];
    assert (a + b)[closing + 1..] == a[closing + 1..] + b;
    hide Resolve, ResolvePlaceholder, InSequence, Prepend, Joined;
    var rest := a[closing + 1..];
    ConcatenationResolves(rest, b, lookup, v);
    PlacedBefore(ResolvePlaceholder(a[2..closing], lookup, v),
                 Resolve(rest + b, lookup, v), Resolve(rest, lookup, v), Resolve(b, lookup, v));
  }

  function Placeholder(content: string): string {
    PREFIX + content + "}"
  }

  lemma PlaceholderIsWhole(content: string)
    requires Balanced(content)
    ensures StartsWithPrefix(Placeholder(content)) && Closing(Placeholder(content)) == Some(|content| + 2)
    ensures Whole(Placeholder(content))
  {
    BalancedContentIsRead(content, "");
    assert Placeholder(content) + "" == Placeholder(content);
    assert Placeholder(content)[|content| + 3..] == "";
  }

  lemma TextOfPieces(a: string, content: string, b: string)
    ensures a + "${" + content + "}" + b == a + (Placeholder(content) + b)
    ensures "${" + content + "}" == Placeholder(content)
  {
  }

  lemma ValuesInOrder(
    whole: Resolution, before: Resolution, rest: Resolution, value: Resolution, behind: Resolution)
    requires InSequence(whole, before, rest) && InSequence(rest, value, behind)
    ensures before.Err? ==> whole == before
    ensures before.Ok? && value.Err? ==> whole == value
    ensures before.Ok? && value.Ok? && behind.Err? ==> whole == behind
    ensures before.Ok? && value.Ok? && behind.Ok? ==> whole == Ok(before.value + value.value + behind.value)
  {
    if before.Ok? && value.Ok? && behind.Ok? {
      Regrouped(before.value, value.value, behind.value);
    }
  }

  /**
   A placeholder in a text is replaced in its place: what comes before it, its
   value and what comes behind it stand in this order, and of several errors the
   leftmost is reported.
   */
  lemma PlaceholderInText(a: string, content: string, b: string, lookup: map<string, string>, v: set<string>)
    requires Whole(a) && (a == "" || a[|a| - 1] != '\\') && Balanced(content)
    ensures var before, value, behind :=
              Resolve(a, lookup, v), Resolve("${" + content + "}", lookup, v), Resolve(b, lookup, v);
            var whole := Resolve(a + "${" + content + "}" + b, lookup, v);
            && (before.Err? ==> whole == before)
            && (before.Ok? && value.Err? ==> whole == value)
            && (before.Ok? && value.Ok? && behind.Err? ==> whole == behind)
            && (before.Ok? && value.Ok? && behind.Ok? ==>
                  whole == Ok(before.value + value.value + behind.value))
  {
    var p := Placeholder(content);
    PlaceholderIsWhole(content);
    assert p[|p| - 1] == '}';
    ConcatenationResolves(p, b, lookup, v);
    assert StartsWithPrefix(p + b);
    assert Apart(a, p + b) by {
      assert (p + b)[0] == '$';
    }
    ConcatenationResolves(a, p + b, lookup, v);
    TextOfPieces(a, content, b);
    ValuesInOrder(Resolve(a + (p + b), lookup, v), Resolve(a, lookup, v), Resolve(p + b, lookup, v),
                  Resolve(p, lookup, v), Resolve(b, lookup, v));
    hide Resolve, Whole, Balanced;
  }

  /**
   The value of a placeholder: that of its key, resolved with the key in progress,
   whatever default it has; else its default, resolved; else the key is reported.
   */
  lemma PlaceholderValue(
    key: string, fallback: Option<string>, lookup: map<string, string>, v: set<string>, name: string)
    requires Balanced(key) && Balanced(Protect(key, 0) + Tail(fallback))
    requires !(fallback.Some? && EndsInBackslash(key)) && Resolve(key, lookup, v) == Ok(name)
    ensures var value := Resolve("${" + (Protect(key, 0) + Tail(fallback)) + "}", lookup, v);
            && (name in lookup && name !in v ==> value == Resolve(lookup[name], lookup, v + {name}))
            && (name in lookup && name in v ==> value == Err(Circular(name)))
            && (name !in lookup && fallback.Some? ==> value == Resolve(fallback.value, lookup, v))
            && (name !in lookup && fallback.None? ==> value == Err(Unresolved(name)))
  {
    var content := Protect(key, 0) + Tail(fallback);
    var p := Placeholder(content);
    PlaceholderIsWhole(content);
    SplitRoundTrip(key, fallback);
    assert "${" + content + "}" == p;
    OnePlaceholder(p, lookup, v, content);
  }

  /** An error in the key of a placeholder is the error of the placeholder. */
  lemma PlaceholderKeyError(key: string, fallback: Option<string>, lookup: map<string, string>, v: set<string>)
    requires Balanced(key) && Balanced(Protect(key, 0) + Tail(fallback))
    requires !(fallback.Some? && EndsInBackslash(key)) && Resolve(key, lookup, v).Err?
    ensures Resolve("${" + (Protect(key, 0) + Tail(fallback)) + "}", lookup, v) == Resolve(key, lookup, v)
  {
    var content := Protect(key, 0) + Tail(fallback);
    PlaceholderIsWhole(content);
    SplitRoundTrip(key, fallback);
    OnePlaceholder(Placeholder(content), lookup, v, content);
  }

  /** A ${ that never closes is text, and so is all that follows it. */
  lemma OpenPrefixIsText(a: string, open: string, lookup: map<string, string>, v: set<string>)
    requires Whole(a) && (a == "" || a[|a| - 1] != '\\')
    requires StartsWithPrefix(open) && Closing(open).None?
    ensures Resolve(a, lookup, v).Ok? ==> Resolve(a + open, lookup, v) == Ok(Resolve(a, lookup, v).value + open)
    ensures Resolve(a, lookup, v).Err? ==> Resolve(a + open, lookup, v) == Resolve(a, lookup, v)
  {
    ConcatenationResolves(a, open, lookup, v);
    assert Resolve(open, lookup, v) == Ok(open);
  }

  lemma OnePlaceholder(p: string, lookup: map<string, string>, v: set<string>, content: string)
    requires p == Placeholder(content) && StartsWithPrefix(p) && Closing(p) == Some(|content| + 2)
    ensures Resolve(p, lookup, v) == ResolvePlaceholder(content, lookup, v)
  {
    assert p[2..|content| + 2] == content && p[|content| + 3..] == "";
    assert Resolve("", lookup, v) == Ok("");
    var value := ResolvePlaceholder(content, lookup, v);
    if value.Ok? {
      assert value.value + "" == value.value;
    }
    hide ResolvePlaceholder, Closing;
  }
}
