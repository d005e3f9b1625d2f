/** The signed-in layout's header: the avatar's initials and the user
    menu, which the avatar toggles and Escape, a click outside or signing
    out close. */
module AppLayout {
  import opened Common

  /** `.map((n) => n[0]).join("")`: the first character of every piece; an
      empty piece gives `undefined`, which `join` writes as nothing. */
  function FirstChars(words: seq<string>): (r: string)
    ensures |r| <= |words|
  {
    if words == [] then ""
    else (if words[0] == "" then "" else [words[0][0]]) + FirstChars(words[1..])
  }

  /** The initials of two lists of pieces laid end to end are those of
      each, in order. */
  lemma {:induction false} FirstCharsConcat(a: seq<string>, b: seq<string>)
    ensures FirstChars(a + b) == FirstChars(a) + FirstChars(b)
  {
    if a == [] {
      assert a + b == b;
    } else {
      assert (a + b)[0] == a[0] && (a + b)[1..] == a[1..] + b;
      FirstCharsConcat(a[1..], b);
    }
  }

  /** An empty piece, as a doubled, leading or trailing space leaves it,
      adds nothing to the initials: "Ana  Maria" gives "AM". */
  lemma EmptyPieceAddsNothing(a: seq<string>, b: seq<string>)
    ensures FirstChars(a + [""] + b) == FirstChars(a + b)
  {
    FirstCharsConcat(a + [""], b);
    FirstCharsConcat(a, [""]);
    FirstCharsConcat(a, b);
  }

  /** `.slice(0, n)` with `n >= 0`. */
  function Take(s: string, n: nat): (r: string)
    ensures |r| <= n && |r| <= |s| && r == s[..|r|]
    ensures |s| >= n ==> |r| == n
    ensures |s| < n ==> r == s
  {
    if |s| <= n then s else s[..n]
  }

  /** `getInitials`: with a name, the upper-cased first characters of its
      space-separated words, cut to two; otherwise the first two characters
      of the e-mail, upper-cased, or "U" when that leaves nothing. */
  function Initials(name: Option<string>, email: Option<string>): (r: string)
    ensures |r| <= 2
    ensures !Truthy(name) ==> r != ""
  {
    if Truthy(name) then Take(ToUpper(FirstChars(Split(name.value, ' '))), 2)
    else OrElse(if email.Some? then ToUpper(Take(email.value, 2)) else "", "U")
  }

  /** A name of one word gives the word's first letter, upper-cased. */
  lemma OneWordInitial(w: string)
    requires w != "" && ' ' !in w
    ensures Initials(Some(w), None) == [UpperChar(w[0])]
  {
    SplitPiece(w, ' ');
    assert FirstChars([w]) == [w[0]];
  }

  /** A name of several words (no empty ones) gives the first letters of the
      first two words, upper-cased, whatever follows. */
  lemma ManyWordInitials(words: seq<string>)
    requires |words| >= 2
    requires forall i :: 0 <= i < |words| ==> words[i] != "" && ' ' !in words[i]
    ensures Initials(Some(Join(words, ' ')), None) == [UpperChar(words[0][0]), UpperChar(words[1][0])]
  {
    var name := Join(words, ' ');
    assert Truthy(Some(name)) by {
      assert name == words[0] + [' '] + Join(words[1..], ' ');
    }
    SplitJoin(words, ' ');
    FirstTwoChars(words);
    UpperTakeTwo(FirstChars(words));
  }

  lemma UpperTakeTwo(s: string)
    requires |s| >= 2
    ensures Take(ToUpper(s), 2) == [UpperChar(s[0]), UpperChar(s[1])]
  {
    var upper := ToUpper(s);
    assert Take(upper, 2) == upper[..2] == [upper[0], upper[1]];
  }

  lemma FirstTwoChars(words: seq<string>)
    requires |words| >= 2 && words[0] != "" && words[1] != ""
    ensures |FirstChars(words)| >= 2
    ensures FirstChars(words)[0] == words[0][0] && FirstChars(words)[1] == words[1][0]
  {
    var tail := words[1..];
    assert tail[0] == words[1];
    assert FirstChars(tail) == [words[1][0]] + FirstChars(tail[1..]);
    assert FirstChars(words) == [words[0][0]] + FirstChars(tail);
  }

  /** Without a name the e-mail decides: its first two characters,
      upper-cased, or "U" for a missing or empty e-mail. */
  lemma EmailInitials(name: Option<string>, email: Option<string>)
    requires !Truthy(name)
    ensures email.Some? && email.value != "" ==> Initials(name, email) == ToUpper(Take(email.value, 2))
    ensures !Truthy(email) ==> Initials(name, email) == "U"
  {
  }

  /** The menu flag and what signing out does beyond it. */
  class UserMenu {
    var isUserMenuOpen: bool
    var signedIn: bool
    /** The path the router shows. */
    var location: string

    constructor (path: string)
      ensures !isUserMenuOpen && signedIn && location == path
    {
      isUserMenuOpen := false;
      signedIn := true;
      location := path;
    }

    /** The avatar button. */
    method Toggle()
      modifies this`isUserMenuOpen
      ensures isUserMenuOpen == !old(isUserMenuOpen)
    {
      isUserMenuOpen := !isUserMenuOpen;
    }

    /** A key press while the menu is open: Escape closes it, other keys
      leave it. */
    method KeyDown(key: string)
      modifies this`isUserMenuOpen
      ensures key == "Escape" ==> !isUserMenuOpen
      ensures key != "Escape" ==> isUserMenuOpen == old(isUserMenuOpen)
    {
      if isUserMenuOpen && key == "Escape" {
        isUserMenuOpen := false;
      }
    }

    /** A mouse press while the menu is open: outside the menu it closes,
      inside it stays. */
    method MouseDown(insideMenu: bool)
      modifies this`isUserMenuOpen
      ensures !insideMenu ==> !isUserMenuOpen
      ensures insideMenu ==> isUserMenuOpen == old(isUserMenuOpen)
    {
      if isUserMenuOpen && !insideMenu {
        isUserMenuOpen := false;
      }
    }

    /** "Sair": close the menu, sign out, go to the landing page. */
    method Logout()
      modifies this`isUserMenuOpen, this`signedIn, this`location
      ensures !isUserMenuOpen && !signedIn && location == "/"
    {
      isUserMenuOpen := false;
      signedIn := false;
      location := "/";
    }
  }
}
