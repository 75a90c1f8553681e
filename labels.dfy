/** Python's `str.split('.')` and `'.'.join(...)` on domain names, with the
    two round trips that relate them. */
module DomainLabels {

  const Dot: char := '.'

  /** `s.split('.')`: the maximal dot-free pieces of `s`, in order. There is
      always at least one piece (`"".split('.') == [""]`), and empty pieces
      are kept (`"a..b"` has three). */
  function Split(s: string): (pieces: seq<string>)
    ensures |pieces| >= 1 && NoDots(pieces)
  {
    if s == [] then [""]
    else
      var rest := Split(s[1..]);
      if s[0] == Dot then [""] + rest
      else [[s[0]] + rest[0]] + rest[1..]
  }

  /** `'.'.join(labels)`: the labels with one dot between neighbours. */
  function Join(labels: seq<string>): string
  {
    if |labels| == 0 then ""
    else if |labels| == 1 then labels[0]
    else labels[0] + [Dot] + Join(labels[1..])
  }

  ghost predicate NoDots(labels: seq<string>)
  {
    forall i :: 0 <= i < |labels| ==> Dot !in labels[i]
  }

  /** Prefixing the first label with a character prefixes the joined name. */
  lemma {:induction false} JoinExtendsFirst(c: char, rest: seq<string>)
    requires |rest| >= 1
    ensures Join([[c] + rest[0]] + rest[1..]) == [c] + Join(rest)
  {
    var labels := [[c] + rest[0]] + rest[1..];
    if |rest| > 1 {
      assert labels[1..] == rest[1..];
    }
  }

  /** Joining the pieces of a split gives back the original string. */
  lemma {:induction false} JoinSplit(s: string)
    ensures Join(Split(s)) == s
  {
    if s != [] {
      var rest := Split(s[1..]);
      JoinSplit(s[1..]);
      if s[0] == Dot {
        assert ([""] + rest)[1..] == rest;
        assert Join(Split(s)) == "" + [Dot] + Join(rest);
      } else {
        JoinExtendsFirst(s[0], rest);
      }
      assert s == [s[0]] + s[1..];
    }
  }

  /** A dot-free string splits into itself alone. */
  lemma {:induction false} SplitLabel(a: string)
    requires Dot !in a
    ensures Split(a) == [a]
  {
    if a != [] {
      SplitLabel(a[1..]);
      assert [a[0]] + a[1..] == a;
    }
  }

  /** Splitting `a.t` for a dot-free `a` yields `a` followed by the pieces of `t`. */
  lemma {:induction false} SplitAfterLabel(a: string, t: string)
    requires Dot !in a
    ensures Split(a + [Dot] + t) == [a] + Split(t)
  {
    var s := a + [Dot] + t;
    if a == [] {
      assert s[1..] == t;
    } else {
      assert s[1..] == a[1..] + [Dot] + t;
      SplitAfterLabel(a[1..], t);
      assert [a[0]] + a[1..] == a;
    }
  }

  /** Splitting a join of dot-free labels gives back the labels. */
  lemma {:induction false} SplitJoin(labels: seq<string>)
    requires |labels| >= 1 && NoDots(labels)
    ensures Split(Join(labels)) == labels
  {
    if |labels| == 1 {
      SplitLabel(labels[0]);
    } else {
      SplitJoin(labels[1..]);
      SplitAfterLabel(labels[0], Join(labels[1..]));
    }
  }

  /** Joining a concatenation puts one dot between the two joined halves. */
  lemma {:induction false} JoinAppend(a: seq<string>, b: seq<string>)
    requires |a| >= 1 && |b| >= 1
    ensures Join(a + b) == Join(a) + [Dot] + Join(b)
  {
    if |a| == 1 {
      assert (a + b)[1..] == b;
    } else {
      assert (a + b)[1..] == a[1..] + b;
      JoinAppend(a[1..], b);
    }
  }
}
