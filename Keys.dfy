/**
 * The three kinds of cache key the views use, and why they never collide:
 * the total count, one entry per assembled page and one per item detail.
 */
module Keys {
  import opened Ids

  const CountKey: string := "pokeapi_total_count"

  const DetailPrefix: string := "pokeapi_detail_"

  const PagePrefix: string := "pokeapi_list_offset_"

  /** `f'pokeapi_detail_{pokemon_id}'`, shared by the list and the retrieve view. */
  function DetailKey(id: int): string
  {
    DetailPrefix + Show(id)
  }

  /** `f'pokeapi_list_offset_{offset}_limit_{limit}'`: built from offset and limit only. */
  function PageKey(offset: int, limit: int): string
  {
    PagePrefix + PageKeyTail(offset, limit)
  }

  /** `{offset}_limit_{limit}`, the part of a page key after its fixed prefix. */
  function PageKeyTail(offset: int, limit: int): string
  {
    Show(offset) + "_" + ("limit_" + Show(limit))
  }

  /** The three families of keys are pairwise disjoint. */
  lemma KeysDisjoint(id: int, offset: int, limit: int)
    ensures DetailKey(id) != CountKey
    ensures PageKey(offset, limit) != CountKey
    ensures DetailKey(id) != PageKey(offset, limit)
  {
    PrefixesDisjoint(Show(id), PageKeyTail(offset, limit));
  }

  /** Whatever follows them, the two key prefixes differ from each other and from the count key. */
  lemma PrefixesDisjoint(d: string, p: string)
    ensures DetailPrefix + d != CountKey
    ensures PagePrefix + p != CountKey
    ensures DetailPrefix + d != PagePrefix + p
  {
    assert (DetailPrefix + d)[8] == 'd';
    assert (PagePrefix + p)[8] == 'l';
    assert CountKey[8] == 't';
  }

  /** Two items share a detail entry only if they have the same id. */
  lemma DetailKeyInjective(a: int, b: int)
    requires DetailKey(a) == DetailKey(b)
    ensures a == b
  {
    assert Show(a) == DetailKey(a)[|DetailPrefix|..];
    assert Show(b) == DetailKey(b)[|DetailPrefix|..];
    ShowInjective(a, b);
  }

  /** Position of the first `c` in `s` (`|s|` when there is none). */
  function IndexOf(s: string, c: char): nat
  {
    if s == [] then 0 else if s[0] == c then 0 else 1 + IndexOf(s[1..], c)
  }

  lemma {:induction false} IndexOfAfterWord(w: string, rest: string, c: char)
    requires c !in w
    ensures IndexOf(w + [c] + rest, c) == |w|
  {
    if w != [] {
      assert (w + [c] + rest)[1..] == w[1..] + [c] + rest;
      assert w[0] in w;
      IndexOfAfterWord(w[1..], rest, c);
    }
  }

  /** A word free of `_` followed by `_` is recovered from the concatenation. */
  lemma SplitAtUnderscore(a: string, x: string, b: string, y: string)
    requires '_' !in a && '_' !in b
    requires a + "_" + x == b + "_" + y
    ensures a == b && x == y
  {
    var s := a + "_" + x;
    IndexOfAfterWord(a, x, '_');
    IndexOfAfterWord(b, y, '_');
    assert a == s[..|a|] == b;
    assert x == s[|a| + 1..] == y;
  }

  /** A page entry identifies the offset and limit it was stored under. */
  lemma PageKeyInjective(o1: int, l1: int, o2: int, l2: int)
    requires PageKey(o1, l1) == PageKey(o2, l2)
    ensures o1 == o2 && l1 == l2
  {
    assert PageKeyTail(o1, l1) == PageKey(o1, l1)[|PagePrefix|..];
    assert PageKeyTail(o2, l2) == PageKey(o2, l2)[|PagePrefix|..];
    SplitAtUnderscore(Show(o1), "limit_" + Show(l1), Show(o2), "limit_" + Show(l2));
    assert Show(l1) == ("limit_" + Show(l1))[6..];
    assert Show(l2) == ("limit_" + Show(l2))[6..];
    ShowInjective(o1, o2);
    ShowInjective(l1, l2);
  }
}
