/**
 * The shapes shared by the three prompt serialisers: a fixed, ordered list of
 * candidate pieces of output, each with a trigger; the pieces whose trigger
 * holds are kept, and their texts are either appended one after another, each
 * behind a separator (the `s += sep + text` style), or joined with a
 * separator (the JavaScript `filter(Boolean).join(sep)` style).
 */
module Segments {

  datatype Option<T> = None | Some(value: T)

  /** One piece the serialiser may emit: which piece it is, whether its trigger holds, and its text. */
  datatype Candidate<T> = Candidate(tag: T, enabled: bool, text: string)

  /** The candidates whose trigger holds, in their original order. */
  function Kept<T>(cs: seq<Candidate<T>>): (ks: seq<Candidate<T>>)
    ensures |ks| <= |cs|
  {
    if cs == [] then []
    else Kept(cs[..|cs| - 1]) + (if cs[|cs| - 1].enabled then [cs[|cs| - 1]] else [])
  }

  /** The names of a list of candidates, in order. */
  function Tags<T>(cs: seq<Candidate<T>>): seq<T>
  {
    seq(|cs|, i requires 0 <= i < |cs| => cs[i].tag)
  }

  /** The texts of a list of candidates, in order. */
  function Texts<T>(cs: seq<Candidate<T>>): seq<string>
  {
    seq(|cs|, i requires 0 <= i < |cs| => cs[i].text)
  }

  /** The names of `cs` strictly increase in `rank`: the list follows a fixed order and names no piece twice. */
  ghost predicate Ranked<T>(cs: seq<Candidate<T>>, rank: T -> nat)
  {
    forall i, j :: 0 <= i < j < |cs| ==> rank(cs[i].tag) < rank(cs[j].tag)
  }

  /**
   * Each kept text behind the separator `sep`, one after another: a non-empty
   * rendering opens with the separator and closes with the last text.
   */
  function Render<T>(ks: seq<Candidate<T>>, sep: string): (r: string)
    ensures ks != [] ==> StartsWith(r, sep) && EndsWith(r, sep + ks[|ks| - 1].text)
  {
    if ks == [] then ""
    else
      var init := Render(ks[..|ks| - 1], sep);
      ConcatAssoc(init, sep, ks[|ks| - 1].text);
      EndsWithAfter(init, sep, ks[|ks| - 1].text);
      if init != "" then StartsWithExtend(init, sep, sep + ks[|ks| - 1].text); init + sep + ks[|ks| - 1].text
      else init + sep + ks[|ks| - 1].text
  }

  /** JavaScript's `xs.join(sep)`: it opens with the first element and closes with the last. */
  function Join(xs: seq<string>, sep: string): (r: string)
    ensures |xs| > 0 ==> StartsWith(r, xs[0]) && EndsWith(r, xs[|xs| - 1])
  {
    if |xs| == 0 then ""
    else if |xs| == 1 then xs[0]
    else
      var init := Join(xs[..|xs| - 1], sep);
      ConcatAssoc(init, sep, xs[|xs| - 1]);
      EndsWithAfter(init, sep, xs[|xs| - 1]);
      StartsWithExtend(init, xs[0], sep + xs[|xs| - 1]);
      init + sep + xs[|xs| - 1]
  }

  /** JavaScript's `xs.filter(Boolean)` on strings: the non-empty ones, in order. */
  function Compact(xs: seq<string>): (ys: seq<string>)
    ensures |ys| <= |xs|
    ensures forall y :: y in ys ==> y in xs && y != ""
    ensures forall x :: x in xs && x != "" ==> x in ys
  {
    if xs == [] then []
    else Compact(xs[..|xs| - 1]) + (if xs[|xs| - 1] != "" then [xs[|xs| - 1]] else [])
  }

  /** Tags the strings of a JavaScript array, which `filter(Boolean)` keeps exactly when they are non-empty. */
  function Entries<T>(tags: seq<T>, texts: seq<string>): (cs: seq<Candidate<T>>)
    requires |tags| == |texts|
    ensures |cs| == |texts|
    ensures forall i :: 0 <= i < |cs| ==> cs[i] == Candidate(tags[i], texts[i] != "", texts[i])
  {
    seq(|tags|, i requires 0 <= i < |tags| => Candidate(tags[i], texts[i] != "", texts[i]))
  }

  /** The text of the first piece named `t` in `ks`, if there is one. */
  function Lookup<T(==)>(ks: seq<Candidate<T>>, t: T): Option<string>
  {
    if ks == [] then None
    else if ks[0].tag == t then Some(ks[0].text)
    else Lookup(ks[1..], t)
  }

  predicate StartsWith(s: string, prefix: string)
  {
    |prefix| <= |s| && s[..|prefix|] == prefix
  }

  predicate EndsWith(s: string, suffix: string)
  {
    |suffix| <= |s| && s[|s| - |suffix|..] == suffix
  }

  /** Concatenation is associative; kept apart so that callers need not search for it. */
  lemma ConcatAssoc<T>(a: seq<T>, b: seq<T>, c: seq<T>)
    ensures (a + b) + c == a + (b + c)
  {
  }

  /** A prefix of `s` stays a prefix once more text follows `s`. */
  lemma StartsWithExtend(s: string, prefix: string, t: string)
    requires StartsWith(s, prefix)
    ensures StartsWith(s + t, prefix)
  {
    assert (s + t)[..|prefix|] == s[..|prefix|];
  }

  /** Being a prefix is transitive. */
  lemma StartsWithTrans(s: string, t: string, prefix: string)
    requires StartsWith(s, t) && StartsWith(t, prefix)
    ensures StartsWith(s, prefix)
  {
    assert s[..|prefix|] == s[..|t|][..|prefix|];
  }

  /** Being a suffix is transitive. */
  lemma EndsWithTrans(s: string, t: string, suffix: string)
    requires EndsWith(s, t) && EndsWith(t, suffix)
    ensures EndsWith(s, suffix)
  {
    assert s[|s| - |suffix|..] == s[|s| - |t|..][|t| - |suffix|..];
  }

  /** `suffix` ends `s + (t + suffix)`. */
  lemma EndsWithAfter(s: string, t: string, suffix: string)
    ensures EndsWith(s + (t + suffix), suffix)
  {
    ConcatAssoc(s, t, suffix);
    assert ((s + t) + suffix)[|s + t|..] == suffix;
  }

  lemma EndsWithExtend(s: string, t: string, suffix: string)
    requires EndsWith(t, suffix)
    ensures EndsWith(s + t, suffix)
  {
    assert (s + t)[|s + t| - |suffix|..] == t[|t| - |suffix|..];
  }

  /** The kept pieces are exactly the candidates whose trigger holds. */
  lemma {:induction false} KeptMembers<T>(cs: seq<Candidate<T>>)
    ensures forall k :: k in Kept(cs) ==> k in cs && k.enabled
    ensures forall c :: c in cs && c.enabled ==> c in Kept(cs)
  {
    if cs != [] {
      var init, last := cs[..|cs| - 1], cs[|cs| - 1];
      assert cs == init + [last];
      KeptMembers(init);
    }
  }

  /** Keeping one more candidate at the end extends the kept list by that candidate exactly when its trigger holds. */
  lemma KeptSnoc<T>(cs: seq<Candidate<T>>, c: Candidate<T>)
    ensures Kept(cs + [c]) == Kept(cs) + (if c.enabled then [c] else [])
  {
    assert (cs + [c])[..|cs|] == cs;
  }

  /** A list none of whose triggers holds keeps nothing. */
  lemma {:induction false} KeptNone<T>(cs: seq<Candidate<T>>)
    requires forall c :: c in cs ==> !c.enabled
    ensures Kept(cs) == []
  {
    if cs != [] {
      var init, last := cs[..|cs| - 1], cs[|cs| - 1];
      assert cs == init + [last];
      KeptNone(init);
    }
  }

  /** Keeping distributes over concatenation: each part keeps its own pieces. */
  lemma {:induction false} KeptConcat<T>(a: seq<Candidate<T>>, b: seq<Candidate<T>>)
    ensures Kept(a + b) == Kept(a) + Kept(b)
  {
    if b != [] {
      var init, last := b[..|b| - 1], b[|b| - 1];
      assert b == init + [last];
      assert a + b == (a + init) + [last];
      KeptConcat(a, init);
      KeptSnoc(a + init, last);
      KeptSnoc(init, last);
    } else {
      assert a + b == a;
    }
  }

  /** Appending one more text behind the separator. */
  lemma RenderSnoc<T>(ks: seq<Candidate<T>>, k: Candidate<T>, sep: string)
    ensures Render(ks + [k], sep) == Render(ks, sep) + sep + k.text
  {
    assert (ks + [k])[..|ks|] == ks;
  }

  /** Rendering distributes over concatenation: the texts of `x` come first, then those of `y`. */
  lemma {:induction false} RenderConcat<T>(x: seq<Candidate<T>>, y: seq<Candidate<T>>, sep: string)
    ensures Render(x + y, sep) == Render(x, sep) + Render(y, sep)
  {
    if y != [] {
      var init, last := y[..|y| - 1], y[|y| - 1];
      assert y == init + [last];
      assert x + y == (x + init) + [last];
      RenderConcat(x, init, sep);
      RenderSnoc(x + init, last, sep);
      RenderSnoc(init, last, sep);
    } else {
      assert x + y == x;
    }
  }

  /** The rendering of the kept pieces of two lists one after the other is the two renderings one after the other. */
  lemma RenderKeptConcat<T>(a: seq<Candidate<T>>, b: seq<Candidate<T>>, sep: string)
    ensures Render(Kept(a + b), sep) == Render(Kept(a), sep) + Render(Kept(b), sep)
  {
    KeptConcat(a, b);
    RenderConcat(Kept(a), Kept(b), sep);
  }

  /** Keeping preserves the fixed order: the kept pieces appear in the same order as the candidates. */
  lemma {:induction false} KeptRanked<T>(cs: seq<Candidate<T>>, rank: T -> nat)
    requires Ranked(cs, rank)
    ensures Ranked(Kept(cs), rank)
  {
    if cs != [] {
      var init, last := cs[..|cs| - 1], cs[|cs| - 1];
      assert cs == init + [last];
      assert Ranked(init, rank);
      KeptRanked(init, rank);
      KeptSnoc(init, last);
      KeptMembers(init);
      forall k | k in Kept(init)
        ensures rank(k.tag) < rank(last.tag)
      {
        assert k in init;
        var i :| 0 <= i < |init| && init[i] == k;
        assert cs[i] == k && cs[|cs| - 1] == last;
      }
    }
  }

  /** In a ranked list, a piece is named in the output exactly when its own trigger holds. */
  lemma KeptTag<T>(cs: seq<Candidate<T>>, rank: T -> nat, j: nat)
    requires Ranked(cs, rank) && j < |cs|
    ensures cs[j].tag in Tags(Kept(cs)) <==> cs[j].enabled
  {
    var ks := Kept(cs);
    KeptMembers(cs);
    if cs[j].enabled {
      assert cs[j] in ks;
      var i :| 0 <= i < |ks| && ks[i] == cs[j];
      assert Tags(ks)[i] == cs[j].tag;
    }
    if cs[j].tag in Tags(ks) {
      var i :| 0 <= i < |ks| && Tags(ks)[i] == cs[j].tag;
      assert ks[i] in ks;
      KeptText(cs, rank, j, ks[i]);
    }
  }

  /** A piece that is kept is kept with its own text: at most one kept candidate carries a given name. */
  lemma KeptText<T>(cs: seq<Candidate<T>>, rank: T -> nat, j: nat, k: Candidate<T>)
    requires Ranked(cs, rank) && j < |cs|
    requires k in Kept(cs) && k.tag == cs[j].tag
    ensures k == cs[j]
  {
    KeptMembers(cs);
    var m :| 0 <= m < |cs| && cs[m] == k;
    assert rank(cs[m].tag) == rank(cs[j].tag);
    assert m == j;
  }

  /** When a candidate's trigger is exactly "its text is non-empty", keeping is `filter(Boolean)` on the texts. */
  lemma {:induction false} CompactTexts<T>(cs: seq<Candidate<T>>)
    requires forall c :: c in cs ==> c.enabled == (c.text != "")
    ensures Compact(Texts(cs)) == Texts(Kept(cs))
  {
    if cs != [] {
      var init, last := cs[..|cs| - 1], cs[|cs| - 1];
      assert cs == init + [last];
      CompactTexts(init);
      KeptSnoc(init, last);
      assert Texts(cs)[..|cs| - 1] == Texts(init);
      TextsSnoc(Kept(init), if last.enabled then [last] else []);
    }
  }

  /** `filter(Boolean)` on a tagged array keeps the texts of the kept entries. */
  lemma EntriesCompact<T>(tags: seq<T>, texts: seq<string>)
    requires |tags| == |texts|
    ensures Compact(texts) == Texts(Kept(Entries(tags, texts)))
  {
    var cs := Entries(tags, texts);
    forall c | c in cs
      ensures c.enabled == (c.text != "")
    {
      var i :| 0 <= i < |cs| && cs[i] == c;
    }
    CompactTexts(cs);
    assert Texts(cs) == texts;
  }

  /** A list whose every name has its own position as rank is ranked. */
  lemma IndexRanked<T>(cs: seq<Candidate<T>>, rank: T -> nat)
    requires forall i :: 0 <= i < |cs| ==> rank(cs[i].tag) == i
    ensures Ranked(cs, rank)
  {
  }

  /** An array whose tags sit at their own rank follows the fixed order. */
  lemma EntriesRanked<T>(tags: seq<T>, texts: seq<string>, rank: T -> nat)
    requires |tags| == |texts|
    requires forall i :: 0 <= i < |tags| ==> rank(tags[i]) == i
    ensures Ranked(Entries(tags, texts), rank)
  {
  }

  lemma TextsSnoc<T>(xs: seq<Candidate<T>>, ys: seq<Candidate<T>>)
    ensures Texts(xs + ys) == Texts(xs) + Texts(ys)
  {
  }

  /** A join whose last element is `v` ends with `v`, and with `sep + v` when there is more than one element. */
  lemma JoinEndsWithLast(xs: seq<string>, sep: string, v: string)
    ensures EndsWith(Join(xs + [v], sep), v)
    ensures xs != [] ==> EndsWith(Join(xs + [v], sep), sep + v)
  {
    var ys := xs + [v];
    assert ys[..|ys| - 1] == xs;
    if xs != [] {
      var j := Join(ys, sep);
      assert j == Join(xs, sep) + (sep + v);
    }
  }

  /** A list of empty strings is dropped entirely by `filter(Boolean)`. */
  lemma {:induction false} CompactNone(xs: seq<string>)
    requires forall i :: 0 <= i < |xs| ==> xs[i] == ""
    ensures Compact(xs) == []
  {
    if xs != [] {
      CompactNone(xs[..|xs| - 1]);
    }
  }

  lemma CompactSingle(x: string)
    requires x != ""
    ensures Compact([x]) == [x]
  {
    assert [x][..0] == [];
  }

  /** `filter(Boolean)` distributes over concatenation. */
  lemma {:induction false} CompactAppend(xs: seq<string>, ys: seq<string>)
    ensures Compact(xs + ys) == Compact(xs) + Compact(ys)
  {
    if ys != [] {
      var init, last := ys[..|ys| - 1], ys[|ys| - 1];
      assert ys == init + [last];
      assert xs + ys == (xs + init) + [last];
      CompactAppend(xs, init);
      CompactSnoc(xs + init, last);
      CompactSnoc(init, last);
    } else {
      assert xs + ys == xs;
    }
  }

  /** A filtered join is empty exactly when every element was empty. */
  lemma JoinCompactEmpty(xs: seq<string>, sep: string)
    ensures Join(Compact(xs), sep) == "" <==> forall x :: x in xs ==> x == ""
  {
    var ys := Compact(xs);
    if ys != [] {
      var last := ys[|ys| - 1];
      assert last in ys;
      assert last in xs && last != "";
    }
  }

  /** A non-empty first element is also first after `filter(Boolean)`. */
  lemma CompactFirst(xs: seq<string>)
    requires |xs| > 0 && xs[0] != ""
    ensures |Compact(xs)| > 0 && Compact(xs)[0] == xs[0]
  {
    assert xs == [xs[0]] + xs[1..];
    CompactAppend([xs[0]], xs[1..]);
    CompactSingle(xs[0]);
  }

  lemma JoinPair(a: string, b: string, sep: string)
    ensures Join([a, b], sep) == a + sep + b
  {
    assert [a, b][..1] == [a];
  }

  /** `filter(Boolean)` keeps a non-empty last element last. */
  lemma CompactSnoc(xs: seq<string>, v: string)
    ensures Compact(xs + [v]) == Compact(xs) + (if v != "" then [v] else [])
  {
    assert (xs + [v])[..|xs|] == xs;
  }

  /** A name that no piece carries is looked up as absent. */
  lemma {:induction false} LookupAbsent<T>(ks: seq<Candidate<T>>, t: T)
    requires t !in Tags(ks)
    ensures Lookup(ks, t) == None
  {
    if ks != [] {
      assert Tags(ks)[0] == ks[0].tag;
      assert Tags(ks[1..]) == Tags(ks)[1..];
      LookupAbsent(ks[1..], t);
    }
  }

  /** A piece that is the only one with its name is looked up with its own text. */
  lemma {:induction false} LookupUnique<T>(ks: seq<Candidate<T>>, k: Candidate<T>)
    requires k in ks
    requires forall m :: m in ks && m.tag == k.tag ==> m == k
    ensures Lookup(ks, k.tag) == Some(k.text)
  {
    if ks[0] != k {
      assert ks[0] in ks;
      LookupUnique(ks[1..], k);
    }
  }

  /**
   * In a list of candidates that follows a fixed order, looking a piece up in
   * the output finds its own text when its trigger holds and nothing otherwise.
   */
  lemma LookupKept<T>(cs: seq<Candidate<T>>, rank: T -> nat, j: nat)
    requires Ranked(cs, rank) && j < |cs|
    ensures Lookup(Kept(cs), cs[j].tag) == if cs[j].enabled then Some(cs[j].text) else None
  {
    var ks := Kept(cs);
    KeptTag(cs, rank, j);
    if cs[j].enabled {
      forall m | m in ks && m.tag == cs[j].tag
        ensures m == cs[j]
      {
        KeptText(cs, rank, j, m);
      }
      LookupUnique(ks, cs[j]);
    } else {
      LookupAbsent(ks, cs[j].tag);
    }
  }

  /** A trailing candidate whose trigger holds adds its text behind the separator. */
  lemma RenderKeptEnabled<T>(cs: seq<Candidate<T>>, c: Candidate<T>, sep: string)
    requires c.enabled
    ensures Render(Kept(cs + [c]), sep) == Render(Kept(cs), sep) + (sep + c.text)
  {
    var ks := Kept(cs);
    KeptSnoc(cs, c);
    assert Kept(cs + [c]) == ks + [c];
    RenderSnoc(ks, c, sep);
  }

  /** A trailing candidate whose trigger fails adds nothing. */
  lemma RenderKeptDisabled<T>(cs: seq<Candidate<T>>, c: Candidate<T>, sep: string)
    requires !c.enabled
    ensures Render(Kept(cs + [c]), sep) == Render(Kept(cs), sep)
  {
    KeptSnoc(cs, c);
    assert Kept(cs + [c]) == Kept(cs);
  }

  /** The text of a kept last candidate ends the output. */
  lemma LastKept<T>(lead: string, init: seq<Candidate<T>>, c: Candidate<T>, sep: string)
    requires c.enabled
    ensures EndsWith(lead + Render(Kept(init + [c]), sep), sep + c.text)
  {
    RenderKeptEnabled(init, c, sep);
    EndsWithAfter(lead, Render(Kept(init), sep), sep + c.text);
  }

  /** A kept candidate followed only by a skipped one still ends the output. */
  lemma LastKeptBeforeSkipped<T>(lead: string, init: seq<Candidate<T>>, c: Candidate<T>, d: Candidate<T>, sep: string)
    requires c.enabled && !d.enabled
    ensures EndsWith(lead + Render(Kept(init + [c] + [d]), sep), sep + c.text)
  {
    RenderKeptDisabled(init + [c], d, sep);
    LastKept(lead, init, c, sep);
  }

  /**
   * One conditional append `if (c's trigger) acc += piece`, where `piece` is
   * the separator followed by c's text, on an accumulator that so far holds
   * `lead` and the rendering of the candidates `done`.
   */
  lemma AppendStep<T>(acc: string, piece: string, lead: string, done: seq<Candidate<T>>, c: Candidate<T>, sep: string)
    requires piece == sep + c.text
    requires acc == lead + Render(Kept(done), sep)
    ensures c.enabled ==> acc + piece == lead + Render(Kept(done + [c]), sep)
    ensures !c.enabled ==> acc == lead + Render(Kept(done + [c]), sep)
  {
    var r := Render(Kept(done), sep);
    if c.enabled {
      RenderKeptEnabled(done, c, sep);
      ConcatAssoc(lead, r, piece);
    } else {
      RenderKeptDisabled(done, c, sep);
    }
  }
}
