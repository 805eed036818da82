/** Facts about sequences that loops erase from while they go. */
module Sequences {
  /** Erasing where the kept part ends, or moving on. */
  lemma EraseOrKeep<T>(kept: seq<T>, e: T, rest: seq<T>)
    ensures var s := kept + ([e] + rest);
      s[..|kept|] + s[|kept| + 1..] == kept + rest && s == (kept + [e]) + rest && s[|kept|] == e
  {
    var s := kept + ([e] + rest);
    assert s[..|kept|] == kept && s[|kept| + 1..] == rest;
  }
}
