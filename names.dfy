/**
 * Subreddit name normalisation: Python's `name.replace("r/", "")`, which
 * scans left to right and deletes every non-overlapping occurrence of "r/".
 */
module Names {

  /** Whether `s` contains "r/" anywhere: at its start or further on. */
  predicate HasRSlash(s: string)
  {
    |s| >= 2 && ((s[0] == 'r' && s[1] == '/') || HasRSlash(s[1..]))
  }

  /** `s` with every occurrence of "r/" removed, leftmost first. */
  function RemoveRSlash(s: string): (r: string)
    ensures |r| <= |s|
    ensures |r| < |s| ==> HasRSlash(s)
    decreases |s|
  {
    if |s| >= 2 && s[0] == 'r' && s[1] == '/' then
      RemoveRSlash(s[2..])
    else if s == [] then
      []
    else
      [s[0]] + RemoveRSlash(s[1..])
  }

  /** A name is left unchanged exactly when it holds no "r/". */
  lemma {:induction false} RemoveRSlashIdentity(s: string)
    ensures RemoveRSlash(s) == s <==> !HasRSlash(s)
    decreases |s|
  {
    if s != [] {
      if |s| >= 2 && s[0] == 'r' && s[1] == '/' {
        assert |RemoveRSlash(s)| < |s|;
      } else {
        RemoveRSlashIdentity(s[1..]);
        assert s == [s[0]] + s[1..];
      }
    }
  }

  /** A leading character that does not start "r/" is kept. */
  lemma RemoveRSlashKeepsHead(c: char, t: string)
    requires !(c == 'r' && t != [] && t[0] == '/')
    ensures RemoveRSlash([c] + t) == [c] + RemoveRSlash(t)
  {
    assert ([c] + t)[1..] == t;
  }

  /** The first occurrence is removed and the text before it is kept:
      together with the identity on names without "r/", this pins the
      function down completely. */
  lemma {:induction false} RemoveRSlashSplit(a: string, b: string)
    requires !HasRSlash(a)
    ensures RemoveRSlash(a + "r/" + b) == a + RemoveRSlash(b)
    decreases |a|
  {
    if a == [] {
      var s := "r/" + b;
      assert a + "r/" + b == s && s[2..] == b;
    } else {
      var t := a[1..] + "r/" + b;
      RemoveRSlashSplit(a[1..], b);
      assert t != [] && t[0] == (if |a| >= 2 then a[1] else 'r');
      RemoveRSlashKeepsHead(a[0], t);
      assert a + "r/" + b == [a[0]] + t;
      assert [a[0]] + a[1..] == a;
    }
  }

  /** One pass does not always leave a name free of "r/": removing the
      inner occurrence of "rr//" joins its neighbours into a new one. */
  lemma RemoveRSlashNotIdempotent()
    ensures RemoveRSlash("rr//") == "r/"
    ensures HasRSlash(RemoveRSlash("rr//"))
  {
  }
}
