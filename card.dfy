/** The generic card of the branch listings (client/src/components/ui/Card.jsx):
    dotted-path lookup into an item, the "N/A" fallback and the title fallback. */
module Card {
  import opened Js
  import Text

  /** `parts.reduce((acc, part) => acc?.[part], v)`. */
  function Follow(v: Json, parts: seq<string>): Json
    decreases parts
  {
    if parts == [] then v else Follow(Member(v, parts[0]), parts[1..])
  }

  /** `getValue(obj, path)`: split the path on "." and follow it. */
  function GetValue(obj: Json, path: string): (r: Json)
    ensures '.' !in path ==> r == Member(obj, path)
    ensures obj == Undefined ==> r == Undefined
  {
    if '.' !in path then
      Text.SplitWithoutSeparator(path, '.');
      assert Follow(obj, [path]) == Follow(Member(obj, path), []);
      Follow(obj, Text.Split(path, '.'))
    else
      MissingStaysUndefined(Text.Split(path, '.'));
      Follow(obj, Text.Split(path, '.'))
  }

  /** Following a path is following its first part, then the rest, left to right. */
  lemma {:induction false} FollowAppend(v: Json, a: seq<string>, b: seq<string>)
    ensures Follow(v, a + b) == Follow(Follow(v, a), b)
    decreases a
  {
    if a != [] {
      assert (a + b)[0] == a[0];
      assert (a + b)[1..] == a[1..] + b;
      FollowAppend(Member(v, a[0]), a[1..], b);
    } else {
      assert a + b == b;
    }
  }

  /** Once a segment is missing the lookup stays undefined: no segment after it can fail. */
  lemma {:induction false} MissingStaysUndefined(parts: seq<string>)
    ensures Follow(Undefined, parts) == Undefined
  {
    if parts != [] {
      MissingStaysUndefined(parts[1..]);
    }
  }

  /** A missing intermediate field anywhere along the path yields undefined. */
  lemma MissingIntermediate(v: Json, prefix: seq<string>, rest: seq<string>)
    requires Follow(v, prefix) == Undefined
    ensures Follow(v, prefix + rest) == Undefined
  {
    FollowAppend(v, prefix, rest);
    MissingStaysUndefined(rest);
  }

  /** A path with no dot is a direct property lookup. */
  lemma SingleSegment(obj: Json, path: string)
    requires '.' !in path
    ensures GetValue(obj, path) == Member(obj, path)
  {
    Text.SplitWithoutSeparator(path, '.');
    var parts := [path];
    assert parts[0] == path && parts[1..] == [];
    assert Follow(obj, parts) == Follow(Member(obj, path), []);
  }

  /** `getValue(obj, "a.rest")` looks up `a` first and then `rest` inside it. */
  lemma DottedPath(obj: Json, head: string, tail: string)
    requires '.' !in head
    ensures GetValue(obj, head + ['.'] + tail) == GetValue(Member(obj, head), tail)
  {
    Text.SplitAtFirst(head, '.', tail);
  }

  /** `getValue(item, key) || "N/A"`: what a field line of the card shows. */
  function FieldText(item: Json, key: string): (r: Json)
    ensures Truthy(GetValue(item, key)) ==> r == GetValue(item, key)
    ensures !Truthy(GetValue(item, key)) ==> r == Str("N/A")
    ensures Truthy(r)
  {
    Or(GetValue(item, key), Str("N/A"))
  }

  /** `item.title || item.name || "Untitled Branch"`. */
  function Title(item: Json): (r: Json)
    ensures Truthy(r)
    ensures Truthy(Member(item, "title")) ==> r == Member(item, "title")
    ensures !Truthy(Member(item, "title")) && Truthy(Member(item, "name")) ==> r == Member(item, "name")
    ensures !Truthy(Member(item, "title")) && !Truthy(Member(item, "name")) ==> r == Str("Untitled Branch")
  {
    Or(Or(Member(item, "title"), Member(item, "name")), Str("Untitled Branch"))
  }
}
