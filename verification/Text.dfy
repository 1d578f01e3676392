/**
 * The two string functions that user data goes through: Go's `strings.TrimSpace`
 * and the service's own `DisplayName`.
 */
module Text {

  /** `unicode.IsSpace`: the code points that `strings.TrimSpace` removes. */
  predicate IsSpace(c: char) {
    var n := c as int;
    || 0x09 <= n <= 0x0D
    || n == 0x20 || n == 0x85 || n == 0xA0 || n == 0x1680
    || 0x2000 <= n <= 0x200A
    || n == 0x2028 || n == 0x2029 || n == 0x202F || n == 0x205F || n == 0x3000
  }

  predicate AllSpace(s: string) {
    forall i :: 0 <= i < |s| ==> IsSpace(s[i])
  }

  /** Neither end of `s` is a space. */
  predicate Trimmed(s: string) {
    s != "" ==> !IsSpace(s[0]) && !IsSpace(s[|s| - 1])
  }

  function TrimLeft(s: string): string {
    if s != "" && IsSpace(s[0]) then TrimLeft(s[1..]) else s
  }

  function TrimRight(s: string): string {
    if s != "" && IsSpace(s[|s| - 1]) then TrimRight(s[..|s| - 1]) else s
  }

  function TrimSpace(s: string): string {
    TrimRight(TrimLeft(s))
  }

  predicate Blank(s: string) {
    TrimSpace(s) == ""
  }

  lemma {:induction false} TrimLeftParts(s: string) returns (pre: string)
    ensures AllSpace(pre) && s == pre + TrimLeft(s)
    ensures TrimLeft(s) != "" ==> !IsSpace(TrimLeft(s)[0])
  {
    if s != "" && IsSpace(s[0]) {
      var rest := TrimLeftParts(s[1..]);
      pre := [s[0]] + rest;
    } else {
      pre := "";
    }
  }

  lemma {:induction false} TrimRightParts(s: string) returns (post: string)
    ensures AllSpace(post) && s == TrimRight(s) + post
    ensures TrimRight(s) != "" ==> !IsSpace(TrimRight(s)[|TrimRight(s)| - 1])
  {
    if s != "" && IsSpace(s[|s| - 1]) {
      var rest := TrimRightParts(s[..|s| - 1]);
      post := rest + [s[|s| - 1]];
    } else {
      post := "";
    }
  }

  /** What trimming takes away is space on the two sides, and it takes all of it. */
  lemma TrimSpaceParts(s: string) returns (pre: string, post: string)
    ensures AllSpace(pre) && AllSpace(post) && Trimmed(TrimSpace(s))
    ensures s == pre + TrimSpace(s) + post
  {
    pre := TrimLeftParts(s);
    post := TrimRightParts(TrimLeft(s));
  }

  lemma {:induction false} TrimLeftDrops(pre: string, s: string)
    requires AllSpace(pre)
    ensures TrimLeft(pre + s) == TrimLeft(s)
  {
    if pre == "" {
      assert pre + s == s;
    } else {
      assert (pre + s)[1..] == pre[1..] + s;
      TrimLeftDrops(pre[1..], s);
    }
  }

  lemma {:induction false} TrimRightDrops(s: string, post: string)
    requires AllSpace(post)
    ensures TrimRight(s + post) == TrimRight(s)
  {
    if post == "" {
      assert s + post == s;
    } else {
      assert (s + post)[..|s + post| - 1] == s + post[..|post| - 1];
      TrimRightDrops(s, post[..|post| - 1]);
    }
  }

  /** `TrimSpace(s)` is the only trimmed string that differs from `s` by outer space. */
  lemma TrimSpaceUnique(pre: string, mid: string, post: string)
    requires AllSpace(pre) && AllSpace(post) && Trimmed(mid)
    ensures TrimSpace(pre + mid + post) == mid
  {
    assert pre + mid + post == pre + (mid + post);
    TrimLeftDrops(pre, mid + post);
    if mid == "" {
      assert mid + post == post && post + "" == post;
      TrimLeftDrops(post, "");
    } else {
      assert TrimLeft(mid + post) == mid + post;
      TrimRightDrops(mid, post);
    }
  }

  /** Trimming is idempotent, and leaves exactly the trimmed strings alone. */
  lemma TrimSpaceFixes(s: string)
    ensures TrimSpace(s) == s <==> Trimmed(s)
    ensures TrimSpace(TrimSpace(s)) == TrimSpace(s)
    ensures Trimmed(TrimSpace(s))
  {
    var _, _ := TrimSpaceParts(s);
    var t := TrimSpace(s);
    assert "" + t + "" == t;
    TrimSpaceUnique("", t, "");
    if Trimmed(s) {
      assert "" + s + "" == s;
      TrimSpaceUnique("", s, "");
    }
  }

  /** The public name of a profile. */
  function DisplayName(firstName: string, lastName: string): string {
    var first := TrimSpace(firstName);
    var last := TrimSpace(lastName);
    if first == "" && last == "" then ""
    else if first == "" then last
    else if last == "" then first
    else first + " " + last
  }

  /** A space beside an empty name is outer space. */
  lemma OuterSpaceOfJoin(first: string, last: string)
    requires TrimSpace(first) == first && TrimSpace(last) == last
    ensures TrimSpace(first + " " + last)
            == if first == "" then last else if last == "" then first else first + " " + last
  {
    TrimSpaceFixes(first);
    TrimSpaceFixes(last);
    if first == "" {
      assert first + " " + last == " " + last + "";
      TrimSpaceUnique(" ", last, "");
    } else if last == "" {
      assert first + " " + last == "" + first + " ";
      TrimSpaceUnique("", first, " ");
    } else {
      TrimSpaceFixes(first + " " + last);
    }
  }

  /**
   * A display name is the two trimmed names with a space between, trimmed. So it never
   * needs trimming, is empty only when both names are blank, and does not depend on the
   * space around the names.
   */
  lemma DisplayNameIsStable(firstName: string, lastName: string)
    ensures Trimmed(DisplayName(firstName, lastName))
    ensures TrimSpace(DisplayName(firstName, lastName)) == DisplayName(firstName, lastName)
    ensures DisplayName(firstName, lastName) == "" <==> Blank(firstName) && Blank(lastName)
    ensures DisplayName(TrimSpace(firstName), TrimSpace(lastName)) == DisplayName(firstName, lastName)
    ensures DisplayName(firstName, lastName) == TrimSpace(TrimSpace(firstName) + " " + TrimSpace(lastName))
  {
    TrimSpaceFixes(firstName);
    TrimSpaceFixes(lastName);
    OuterSpaceOfJoin(TrimSpace(firstName), TrimSpace(lastName));
    TrimSpaceFixes(DisplayName(firstName, lastName));
  }
}
