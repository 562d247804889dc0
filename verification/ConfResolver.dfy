/** The evaluator of conf/placeholder.go: index loops over a builder, and a visited map changed in place. */
module ConfResolver {
  import opened Wrappers
  import opened ConfModel

  method PlaceholderAt(text: string) returns (content: string, length: nat, terminated: bool)
    requires StartsWithPrefix(text)
    ensures terminated == Closing(text).Some?
    ensures terminated ==> length == Closing(text).value + 1 && content == text[2..length - 1]
    ensures !terminated ==> content == "" && length == 0
  {
    var depth := 0;
    var index := 2;
    while index < |text|
      invariant 2 <= index <= |text| && depth >= 0
      invariant ClosingFrom(text, 2, 0) == ClosingFrom(text, index, depth)
    {
      if text[index] == '{' {
        depth := depth + 1;
      } else if text[index] == '}' {
        if depth == 0 {
          return text[2..index], index + 1, true;
        }
        depth := depth - 1;
      }
      index := index + 1;
    }
    return "", 0, false;
  }

  method SplitPlaceholder(content: string) returns (key: string, fallback: string, hasDefault: bool)
    ensures key == Split(content).key
    ensures Split(content).fallback == if hasDefault then Some(fallback) else None
  {
    var builder := "";
    var depth: int := 0;
    var index := 0;
    while index < |content|
      invariant 0 <= index <= |content|
      invariant Split(content) == Pieces(builder + SplitFrom(content, index, depth).key,
                                         SplitFrom(content, index, depth).fallback)
    {
      ghost var before := SplitFrom(content, index, depth);
      var character := content[index];
      if character == '\\' && index + 1 < |content| && content[index + 1] == ':' {
        ghost var rest := SplitFrom(content, index + 2, depth);
        Regroup(builder, if depth > 0 then "\\:" else ":", rest.key);
        if depth > 0 {
          builder := builder + "\\:";
        } else {
          builder := builder + ":";
        }
        index := index + 2;
      } else if character == ':' && depth == 0 {
        assert before == Pieces("", Some(content[index + 1..]));
        return builder, content[index + 1..], true;
      } else {
        if character == '{' {
          depth := depth + 1;
        } else if character == '}' {
          depth := depth - 1;
        }
        Regroup(builder, [character], SplitFrom(content, index + 1, depth).key);
        builder := builder + [character];
        index := index + 1;
      }
    }
    return builder, "", false;
  }

  lemma Regroup(a: string, b: string, c: string)
    ensures a + (b + c) == (a + b) + c
  {
  }

  lemma PrependTwice(a: string, b: string, r: Resolution)
    ensures Prepend(a, Prepend(b, r)) == Prepend(a + b, r)
  {
    if r.Ok? {
      Regroup(a, b, r.value);
    }
  }

  lemma PrependNothing(r: Resolution)
    ensures Prepend("", r) == r
  {
    if r.Ok? {
      assert "" + r.value == r.value;
    }
  }

  class Resolver {
    const lookup: map<string, string>
    var visited: set<string>

    constructor (lookup: map<string, string>)
      ensures this.lookup == lookup && visited == {}
    {
      this.lookup := lookup;
      visited := {};
    }

    method ResolveText(text: string) returns (r: Resolution)
      modifies this
      ensures r == Resolve(text, lookup, old(visited)) && visited == old(visited)
      decreases lookup.Keys - visited, 2 * |text|
    {
      var builder := "";
      var index := 0;
      assert text[0..] == text;
      PrependNothing(Resolve(text, lookup, visited));
      while index < |text|
        invariant 0 <= index <= |text| && visited == old(visited)
        invariant Resolve(text, lookup, visited) == Prepend(builder, Resolve(text[index..], lookup, visited))
        decreases |text| - index
      {
        ghost var rest := text[index..];
        if text[index] == '\\' && index + 2 < |text| && text[index + 1] == '$' && text[index + 2] == '{' {
          assert StartsEscaped(rest) && rest[3..] == text[index + 3..];
          PrependTwice(builder, PREFIX, Resolve(text[index + 3..], lookup, visited));
          builder := builder + PREFIX;
          index := index + 3;
        } else if text[index] == '$' && index + 1 < |text| && text[index + 1] == '{' {
          var content, length, terminated := PlaceholderAt(text[index..]);
          if !terminated {
            return Ok(builder + text[index..]);
          }
          var resolved := ResolvePlaceholder(content);
          assert rest[length..] == text[index + length..];
          assert Resolve(rest, lookup, visited)
              == Joined(resolved, Resolve(text[index + length..], lookup, visited));
          if resolved.Err? {
            return resolved;
          }
          PrependTwice(builder, resolved.value, Resolve(text[index + length..], lookup, visited));
          builder := builder + resolved.value;
          index := index + length;
        } else {
          assert rest[1..] == text[index + 1..];
          PrependTwice(builder, [text[index]], Resolve(text[index + 1..], lookup, visited));
          builder := builder + [text[index]];
          index := index + 1;
        }
      }
      assert text[index..] == "" && builder + "" == builder;
      return Ok(builder);
    }

    method ResolvePlaceholder(content: string) returns (r: Resolution)
      modifies this
      ensures r == ConfModel.ResolvePlaceholder(content, lookup, old(visited)) && visited == old(visited)
      decreases lookup.Keys - visited, 2 * |content| + 1
    {
      var keyText, fallback, hasDefault := SplitPlaceholder(content);
      var key := ResolveText(keyText);
      if key.Err? {
        return key;
      }
      if key.value in lookup {
        if key.value in visited {
          return Err(Circular(key.value));
        }
        assert key.value in lookup.Keys - visited;
        visited := visited + {key.value};
        r := ResolveText(lookup[key.value]);
        visited := visited - {key.value};
        return;
      }
      if hasDefault {
        r := ResolveText(fallback);
        return;
      }
      return Err(Unresolved(key.value));
    }
  }
}
