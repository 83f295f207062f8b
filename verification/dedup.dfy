/**
 * The engine's `uniq` (services/geminiService.ts): trim every line, drop blank lines and keep
 * the first occurrence of each distinct line, as `Array.from(new Set(...))` does.
 */
module Dedup {
  import opened Text

  /** No element occurs twice. */
  predicate NoDup(xs: seq<string>) {
    forall i, j | 0 <= i < j < |xs| :: xs[i] != xs[j]
  }

  /** `a` is a prefix of `b`. */
  predicate IsPrefix(a: seq<string>, b: seq<string>) {
    |a| <= |b| && a == b[..|a|]
  }

  /**
   * Insertion order of a JavaScript `Set`: each distinct element once, where it first occurs.
   * Defined by extending the list at its end, as the `Set` is filled.
   */
  function Dedup(xs: seq<string>): (r: seq<string>)
    ensures NoDup(r)
    ensures |r| <= |xs|
    ensures forall x :: x in r <==> x in xs
    decreases |xs|
  {
    if xs == [] then []
    else
      var init, x := xs[..|xs| - 1], xs[|xs| - 1];
      assert xs == init + [x];
      var r := Dedup(init);
      if x in r then r else r + [x]
  }

  /** Appending never moves what was already kept: the de-duplicated prefix is a prefix of the whole. */
  lemma {:induction false} DedupPrefix(a: seq<string>, b: seq<string>)
    ensures IsPrefix(Dedup(a), Dedup(a + b))
    decreases |b|
  {
    if b != [] {
      var b' := b[..|b| - 1];
      assert (a + b)[..|a + b| - 1] == a + b';
      DedupPrefix(a, b');
    } else {
      assert a + b == a;
    }
  }

  /** A list without repeats is left as it is. */
  lemma {:induction false} DedupOfNoDup(xs: seq<string>)
    requires NoDup(xs)
    ensures Dedup(xs) == xs
    decreases |xs|
  {
    if xs != [] {
      var init := xs[..|xs| - 1];
      DedupOfNoDup(init);
      assert xs[|xs| - 1] !in init;
      assert xs == init + [xs[|xs| - 1]];
    }
  }

  /** `lines.map((s) => s.trim())`. */
  function TrimAll(lines: seq<string>): (r: seq<string>)
    ensures |r| == |lines|
    ensures forall i | 0 <= i < |lines| :: r[i] == Trim(lines[i])
  {
    seq(|lines|, i requires 0 <= i < |lines| => Trim(lines[i]))
  }

  /** `lines.filter(Boolean)`: drops the empty strings and keeps the rest in order. */
  function NonBlank(lines: seq<string>): (r: seq<string>)
    ensures |r| <= |lines|
    ensures forall x :: x in r <==> x in lines && x != ""
    decreases |lines|
  {
    if lines == [] then []
    else
      var init, x := lines[..|lines| - 1], lines[|lines| - 1];
      assert lines == init + [x];
      if x == "" then NonBlank(init) else NonBlank(init) + [x]
  }

  lemma {:induction false} NonBlankAppend(a: seq<string>, b: seq<string>)
    ensures NonBlank(a + b) == NonBlank(a) + NonBlank(b)
    decreases |b|
  {
    if b == [] {
      assert a + b == a;
    } else {
      var b' := b[..|b| - 1];
      assert (a + b)[..|a + b| - 1] == a + b';
      NonBlankAppend(a, b');
    }
  }

  lemma {:induction false} NonBlankOfNonEmpty(lines: seq<string>)
    requires forall i | 0 <= i < |lines| :: lines[i] != ""
    ensures NonBlank(lines) == lines
    decreases |lines|
  {
    if lines != [] {
      NonBlankOfNonEmpty(lines[..|lines| - 1]);
      assert lines == lines[..|lines| - 1] + [lines[|lines| - 1]];
    }
  }

  /**
   * `uniq`: the trimmed, non-empty lines, each once, in order of first occurrence. A line is
   * kept exactly when some input line trims to it.
   */
  function Uniq(lines: seq<string>): (r: seq<string>)
    ensures NoDup(r)
    ensures |r| <= |lines|
    ensures forall x | x in r :: x != "" && IsTrimmed(x)
  {
    Dedup(NonBlank(TrimAll(lines)))
  }

  /** A line is kept exactly when it is not empty and some input line trims to it. */
  lemma UniqMembers(lines: seq<string>)
    ensures forall x :: x in Uniq(lines) <==> x != "" && exists i | 0 <= i < |lines| :: Trim(lines[i]) == x
  {
    var t := TrimAll(lines);
    assert forall x :: x in t <==> exists i | 0 <= i < |lines| :: Trim(lines[i]) == x;
  }

  /** The kept lines of a prefix are a prefix of the kept lines: first occurrence decides the order. */
  lemma UniqPrefix(a: seq<string>, b: seq<string>)
    ensures IsPrefix(Uniq(a), Uniq(a + b))
  {
    var ta, tb := TrimAll(a), TrimAll(b);
    TrimAllAppend(a, b);
    NonBlankAppend(ta, tb);
    DedupPrefix(NonBlank(ta), NonBlank(tb));
  }

  /** Trimming works line by line, so it distributes over concatenation. */
  lemma TrimAllAppend(a: seq<string>, b: seq<string>)
    ensures TrimAll(a + b) == TrimAll(a) + TrimAll(b)
  {
    var ta, tb := TrimAll(a), TrimAll(b);
    var tab, t := TrimAll(a + b), ta + tb;
    assert |tab| == |t|;
    forall i | 0 <= i < |tab| ensures tab[i] == t[i] {
      if i < |a| {
        assert (a + b)[i] == a[i] && t[i] == ta[i];
      } else {
        assert (a + b)[i] == b[i - |a|] && t[i] == tb[i - |a|];
      }
    }
    assert tab == t;
  }

  /** Lines that are already trimmed, non-empty and distinct pass through unchanged. */
  lemma UniqOfClean(lines: seq<string>)
    requires NoDup(lines)
    requires forall i | 0 <= i < |lines| :: lines[i] != "" && IsTrimmed(lines[i])
    ensures Uniq(lines) == lines
  {
    forall i | 0 <= i < |lines| ensures Trim(lines[i]) == lines[i] {
      TrimmedIsFixpoint(lines[i]);
    }
    assert TrimAll(lines) == lines;
    NonBlankOfNonEmpty(lines);
    DedupOfNoDup(lines);
  }

  /** Applying `uniq` twice is the same as applying it once. */
  lemma UniqIdempotent(lines: seq<string>)
    ensures Uniq(Uniq(lines)) == Uniq(lines)
  {
    var r := Uniq(lines);
    forall i | 0 <= i < |r| ensures r[i] != "" && IsTrimmed(r[i]) {
      assert r[i] in r;
    }
    UniqOfClean(r);
  }

  /** When the first line is not blank, its trimmed text is the first kept line. */
  lemma UniqFirst(lines: seq<string>)
    requires |lines| > 0 && Trim(lines[0]) != ""
    ensures |Uniq(lines)| > 0 && Uniq(lines)[0] == Trim(lines[0])
  {
    assert lines == [lines[0]] + lines[1..];
    UniqPrefix([lines[0]], lines[1..]);
    assert Trim(lines[0]) in Uniq([lines[0]]);
  }

  /** For a trimmed, non-empty line, being kept is the same as occurring among trimmed inputs. */
  lemma UniqMember(lines: seq<string>, x: string)
    requires x != "" && IsTrimmed(x)
    requires forall i | 0 <= i < |lines| :: IsTrimmed(lines[i])
    ensures x in Uniq(lines) <==> x in lines
  {
    forall i | 0 <= i < |lines| ensures Trim(lines[i]) == lines[i] {
      TrimmedIsFixpoint(lines[i]);
    }
  }
}
