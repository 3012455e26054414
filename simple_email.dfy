/** The short email pattern `/^[^\s@]+@[^\s@]+\.[^\s@]+$/` shared by the home
    page (js/script.js), the portfolio contact form (js/portfolio.js) and the
    blog newsletter (js/blog.js). */
module SimpleEmail {
  import opened Text

  /** One `[^\s@]+` run: non-empty, with no white space and no `@`. */
  predicate IsRun(s: string) {
    |s| > 0 && forall k :: 0 <= k < |s| ==> !IsSpace(s[k]) && s[k] != '@'
  }

  /** The pattern, matched with its `@` at `i` and its literal `.` at `j`. */
  ghost predicate MatchesAt(s: string, i: int, j: int) {
    && 0 <= i < j < |s|
    && s[i] == '@' && s[j] == '.'
    && IsRun(s[..i]) && IsRun(s[i + 1..j]) && IsRun(s[j + 1..])
  }

  /** `s` matches the whole pattern: three runs joined by `@` and `.`. */
  ghost predicate Matches(s: string) {
    exists i, j :: MatchesAt(s, i, j)
  }

  /** Index of the first `c` in `s`, or `|s|` when there is none. */
  function IndexOf(s: string, c: char): (k: nat)
    ensures k <= |s|
    ensures c !in s[..k]
    ensures k < |s| ==> s[k] == c
  {
    if |s| == 0 || s[0] == c then 0
    else
      var k := IndexOf(s[1..], c);
      assert s[..k + 1] == [s[0]] + s[1..][..k];
      k + 1
  }

  /** The domain `d` has a `.` with at least one character on each side. */
  predicate HasInnerDot(d: string) {
    exists j | 0 < j < |d| - 1 :: d[j] == '.'
  }

  /** `regex.test(s)`, decided by one scan: no white space anywhere, an `@`
      that is not the first character and is the only one, and a `.` strictly
      inside the part after it. */
  predicate IsValidEmail(s: string) {
    var i := IndexOf(s, '@');
    && (forall k | 0 <= k < |s| :: !IsSpace(s[k]))
    && 0 < i < |s|
    && '@' !in s[i + 1..]
    && HasInnerDot(s[i + 1..])
  }

  /** The scan accepts exactly the strings the pattern matches. */
  lemma IsValidEmailIffMatches(s: string)
    ensures IsValidEmail(s) <==> Matches(s)
  {
    var i := IndexOf(s, '@');
    if IsValidEmail(s) {
      var d := s[i + 1..];
      var j' :| 0 < j' < |d| - 1 && d[j'] == '.';
      var j := i + 1 + j';
      assert s[i + 1..j] == d[..j'];
      assert s[j + 1..] == d[j' + 1..];
      assert MatchesAt(s, i, j);
    }
    if Matches(s) {
      var i', j :| MatchesAt(s, i', j);
      forall k | 0 <= k < |s| ensures !IsSpace(s[k]) {
        if k < i' {
          assert s[k] == s[..i'][k];
        } else if i' < k < j {
          assert s[k] == s[i' + 1..j][k - i' - 1];
        } else if j < k {
          assert s[k] == s[j + 1..][k - j - 1];
        }
      }
      assert i == i';
      var d := s[i + 1..];
      forall k | 0 <= k < |d| ensures d[k] != '@' {
        if k < j - i - 1 {
          assert d[k] == s[i + 1..j][k];
        } else if k > j - i - 1 {
          assert d[k] == s[j + 1..][k - (j - i)];
        }
      }
      assert d[j - i - 1] == '.';
      assert HasInnerDot(d);
    }
  }

  /** Three runs joined by `@` and `.` always pass. */
  lemma RunsMakeValidEmail(local: string, host: string, tld: string)
    requires IsRun(local) && IsRun(host) && IsRun(tld)
    ensures IsValidEmail(local + "@" + host + "." + tld)
  {
    var s := local + "@" + host + "." + tld;
    var i, j := |local|, |local| + 1 + |host|;
    assert s[..i] == local && s[i + 1..j] == host && s[j + 1..] == tld;
    assert MatchesAt(s, i, j);
    IsValidEmailIffMatches(s);
  }

  /** A string holding any white space, leading and trailing spaces included,
      is rejected. */
  lemma SpaceRejected(s: string, k: nat)
    requires k < |s| && IsSpace(s[k])
    ensures !IsValidEmail(s)
  {
  }
}
