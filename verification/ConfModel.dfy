/**
 The placeholder grammar of conf/placeholder.go and its meaning. A text is
 resolved against a finite lookup with the set of keys being resolved; a key met
 again while it is being resolved is a cycle.
 */
module ConfModel {
  import opened Wrappers

  datatype ResolveError = Unresolved(key: string) | Circular(key: string)

  type Resolution = Result<string, ResolveError>

  const PREFIX := "${"

  predicate StartsWithPrefix(text: string) {
    |text| >= 2 && text[0] == '$' && text[1] == '{'
  }

  predicate StartsEscaped(text: string) {
    |text| >= 3 && text[0] == '\\' && StartsWithPrefix(text[1..])
  }

  // ---------------------------------------------------------------- the grammar

  /** Where the brace that closes the placeholder is, counting from an index at a brace depth. */
  function ClosingFrom(text: string, index: nat, depth: nat): (r: Option<nat>)
    requires index <= |text|
    ensures r.Some? ==> index <= r.value < |text| && text[r.value] == '}'
    decreases |text| - index
  {
    if index == |text| then None
    else if text[index] == '{' then ClosingFrom(text, index + 1, depth + 1)
    else if text[index] == '}' then (if depth == 0 then Some(index) else ClosingFrom(text, index + 1, depth - 1))
    else ClosingFrom(text, index + 1, depth)
  }

  function Closing(text: string): (r: Option<nat>)
    requires StartsWithPrefix(text)
    ensures r.Some? ==> 2 <= r.value < |text|
  {
    ClosingFrom(text, 2, 0)
  }

  datatype Pieces = Pieces(key: string, fallback: Option<string>)

  predicate EscapedColon(content: string, index: nat) {
    index + 1 < |content| && content[index] == '\\' && content[index + 1] == ':'
  }

  /** The rest of the split, from an index at a brace depth. */
  function SplitFrom(content: string, index: nat, depth: int): (r: Pieces)
    requires index <= |content|
    ensures |r.key| <= |content| - index
    ensures r.fallback.Some? ==> |r.fallback.value| <= |content| - index
    decreases |content| - index
  {
    if index == |content| then Pieces("", None)
    else if EscapedColon(content, index) then
      var rest := SplitFrom(content, index + 2, depth);
      Pieces((if depth > 0 then "\\:" else ":") + rest.key, rest.fallback)
    else if content[index] == ':' && depth == 0 then Pieces("", Some(content[index + 1..]))
    else
      var moved := if content[index] == '{' then depth + 1 else if content[index] == '}' then depth - 1 else depth;
      var rest := SplitFrom(content, index + 1, moved);
      Pieces([content[index]] + rest.key, rest.fallback)
  }

  function Split(content: string): (r: Pieces)
    ensures |r.key| <= |content| && (r.fallback.Some? ==> |r.fallback.value| <= |content|)
  {
    SplitFrom(content, 0, 0)
  }

  // ---------------------------------------------------------------- evaluation

  function Prepend(head: string, r: Resolution): Resolution {
    if r.Ok? then Ok(head + r.value) else r
  }

  /** A resolved placeholder, then the rest of the text; the first error wins. */
  function Joined(first: Resolution, rest: Resolution): Resolution {
    if first.Ok? then Prepend(first.value, rest) else first
  }

  function Resolve(text: string, lookup: map<string, string>, visited: set<string>): Resolution
    decreases lookup.Keys - visited, 2 * |text|
  {
    if text == "" then Ok("")
    else if StartsEscaped(text) then Prepend(PREFIX, Resolve(text[3..], lookup, visited))
    else if StartsWithPrefix(text) then
      var closing := Closing(text);
      if closing.None? then Ok(text)
      else Joined(ResolvePlaceholder(text[2..closing.value], lookup, visited),
                  Resolve(text[closing.value + 1..], lookup, visited))
    else Prepend([text[0]], Resolve(text[1..], lookup, visited))
  }

  function ResolvePlaceholder(content: string, lookup: map<string, string>, visited: set<string>): Resolution
    decreases lookup.Keys - visited, 2 * |content| + 1
  {
    var pieces := Split(content);
    var key := Resolve(pieces.key, lookup, visited);
    if key.Err? then key
    else if key.value in lookup then
      (if key.value in visited then Err(Circular(key.value))
       else
         assert lookup.Keys - (visited + {key.value}) < lookup.Keys - visited by {
           assert key.value in lookup.Keys - visited;
         }
         Resolve(lookup[key.value], lookup, visited + {key.value}))
    else if pieces.fallback.Some? then Resolve(pieces.fallback.value, lookup, visited)
    else Err(Unresolved(key.value))
  }
}
