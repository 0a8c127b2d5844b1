/**
  The user menu of the navigation bar: the avatar's initials, opening and
  closing the menu, and what each menu item does.
*/
module UserMenu {
  import opened Js

  /** `s.split(c)`: the pieces between the separators, empty ones included. */
  function Split(s: string, c: char): (pieces: seq<string>)
    ensures |pieces| >= 1
    ensures forall i | 0 <= i < |pieces| :: c !in pieces[i]
    ensures Join(pieces, [c]) == s
  {
    if s == [] then [""]
    else if s[0] == c then
      var rest := Split(s[1..], c);
      JoinCons("", rest, [c]);
      assert s == [c] + s[1..];
      [""] + rest
    else
      var rest := Split(s[1..], c);
      JoinCons([s[0]] + rest[0], rest[1..], [c]);
      JoinCons(rest[0], rest[1..], [c]);
      assert rest == [rest[0]] + rest[1..];
      assert s == [s[0]] + s[1..];
      [[s[0]] + rest[0]] + rest[1..]
  }

  /** Joining a first piece onto the join of the rest. */
  lemma JoinCons(p: string, rest: seq<string>, sep: string)
    ensures Join([p] + rest, sep) == if rest == [] then p else p + sep + Join(rest, sep)
  {
    if rest != [] {
      assert ([p] + rest)[1..] == rest;
    }
  }

  /** Splitting a join of pieces without the separator gives the pieces back. */
  lemma {:induction false} SplitJoin(pieces: seq<string>, c: char)
    requires |pieces| >= 1
    requires forall i | 0 <= i < |pieces| :: c !in pieces[i]
    ensures Split(Join(pieces, [c]), c) == pieces
  {
    if |pieces| == 1 {
      SplitWord(pieces[0], c);
    } else {
      var rest := pieces[1..];
      SplitJoin(rest, c);
      JoinCons(pieces[0], rest, [c]);
      assert pieces == [pieces[0]] + rest;
      SplitAfterWord(pieces[0], Join(rest, [c]), c);
    }
  }

  /** A word without the separator is one piece. */
  lemma {:induction false} SplitWord(w: string, c: char)
    requires c !in w
    ensures Split(w, c) == [w]
  {
    if w != [] {
      SplitWord(w[1..], c);
      assert w == [w[0]] + w[1..];
    }
  }

  /** A word followed by the separator becomes the first piece. */
  lemma {:induction false} SplitAfterWord(w: string, tail: string, c: char)
    requires c !in w
    ensures Split(w + [c] + tail, c) == [w] + Split(tail, c)
  {
    if w == [] {
      assert [] + [c] + tail == [c] + tail;
      assert ([c] + tail)[1..] == tail;
    } else {
      assert (w + [c] + tail)[1..] == w[1..] + [c] + tail;
      SplitAfterWord(w[1..], tail, c);
      assert w == [w[0]] + w[1..];
    }
  }

  /** `word.charAt(0)` for each word, joined: empty words give nothing. */
  function FirstChars(words: seq<string>): (firsts: string)
    ensures |firsts| <= |words|
    ensures (forall i | 0 <= i < |words| :: words[i] != "") ==> |firsts| == |words|
    ensures forall i | 0 <= i < |firsts| :: exists j | 0 <= j < |words| :: words[j] != "" && firsts[i] == words[j][0]
  {
    if words == [] then ""
    else
      var rest := FirstChars(words[1..]);
      var firsts := (if words[0] == "" then "" else [words[0][0]]) + rest;
      FirstCharsFromWords(words, rest, firsts);
      firsts
  }

  /** Every first letter after the first word's comes from a later word. */
  lemma FirstCharsFromWords(words: seq<string>, rest: string, firsts: string)
    requires words != []
    requires forall i | 0 <= i < |rest| :: exists j | 0 <= j < |words| - 1 :: words[1..][j] != "" && rest[i] == words[1..][j][0]
    requires firsts == (if words[0] == "" then "" else [words[0][0]]) + rest
    ensures forall i | 0 <= i < |firsts| :: exists j | 0 <= j < |words| :: words[j] != "" && firsts[i] == words[j][0]
  {
    var lead := |firsts| - |rest|;
    forall i | 0 <= i < |firsts|
      ensures exists j | 0 <= j < |words| :: words[j] != "" && firsts[i] == words[j][0]
    {
      if i < lead {
        assert words[0] != "" && firsts[i] == words[0][0];
      } else {
        var j :| 0 <= j < |words| - 1 && words[1..][j] != "" && rest[i - lead] == words[1..][j][0];
        assert words[j + 1] == words[1..][j];
      }
    }
  }

  /** `getInitials` (lines 59-67): 'U' for a missing or empty name, else the
      first letter of each space-separated word, upper-cased, at most two. */
  function Initials(name: Option<string>): (initials: string)
    ensures name.None? || name.value == "" ==> initials == "U"
    ensures |initials| <= 2
  {
    if name.None? || name.value == "" then "U"
    else
      var letters := Upper(FirstChars(Split(name.value, ' ')));
      if |letters| <= 2 then letters else letters[..2]
  }

  /** A name of two words gives the two upper-cased first letters. */
  lemma TwoWordInitials(first: string, last: string)
    requires first != "" && last != "" && ' ' !in first && ' ' !in last
    ensures Initials(Some(first + " " + last)) == Upper([first[0], last[0]])
  {
    SplitJoin([first, last], ' ');
    assert Join([first, last], [' ']) == first + " " + last by {
      assert [first, last][1..] == [last];
    }
    assert FirstChars([first, last]) == [first[0], last[0]] by {
      assert [first, last][1..] == [last];
      assert [last][1..] == [];
    }
  }

  /** The avatar is blank exactly for a name made of spaces only: every
      other non-empty name has a word whose first letter shows. */
  lemma BlankOnlyForSpaces(name: string)
    requires name != ""
    ensures Initials(Some(name)) == "" <==> forall i | 0 <= i < |name| :: name[i] == ' '
  {
    var words := Split(name, ' ');
    if forall i | 0 <= i < |name| :: name[i] == ' ' {
      AllSpacesGiveEmptyWords(name);
    } else {
      var i :| 0 <= i < |name| && name[i] != ' ';
      SomeWordNonEmpty(name, i);
    }
  }

  lemma {:induction false} AllSpacesGiveEmptyWords(s: string)
    requires forall i | 0 <= i < |s| :: s[i] == ' '
    ensures FirstChars(Split(s, ' ')) == ""
  {
    if s != [] {
      AllSpacesGiveEmptyWords(s[1..]);
      assert Split(s, ' ') == [""] + Split(s[1..], ' ');
      assert ([""] + Split(s[1..], ' '))[1..] == Split(s[1..], ' ');
    }
  }

  lemma {:induction false} SomeWordNonEmpty(s: string, i: nat)
    requires i < |s| && s[i] != ' '
    ensures FirstChars(Split(s, ' ')) != ""
  {
    var words := Split(s, ' ');
    if s[0] == ' ' {
      SomeWordNonEmpty(s[1..], i - 1);
      assert words == [""] + Split(s[1..], ' ');
      assert words[1..] == Split(s[1..], ' ');
    } else {
      assert words[0] != "";
    }
  }

  /** What choosing a menu item does besides closing the menu. */
  datatype Effect = LoggedOut | Navigated(path: string) | NoEffect

  class Menu {
    var isOpen: bool

    constructor ()
      ensures !isOpen
    {
      isOpen := false;
    }

    /** `toggleMenu` (lines 24-26). */
    method Toggle()
      modifies this
      ensures isOpen == !old(isOpen)
    {
      isOpen := !isOpen;
    }

    /** The document's mousedown listener (lines 12-16): a press outside the
        menu closes it, one inside changes nothing. */
    method MouseDown(insideMenu: bool)
      modifies this
      ensures isOpen == (old(isOpen) && insideMenu)
    {
      if !insideMenu {
        isOpen := false;
      }
    }

    /** `handleMenuItemClick` (lines 28-35): the menu closes whatever the item. */
    method MenuItemClick(action: string) returns (effect: Effect)
      modifies this
      ensures !isOpen
      ensures effect == LoggedOut <==> action == "logout"
      ensures effect == Navigated("/account-settings-privacy") <==> action == "settings"
      ensures action !in {"logout", "settings"} ==> effect == NoEffect
    {
      isOpen := false;
      if action == "logout" {
        effect := LoggedOut;
      } else if action == "settings" {
        effect := Navigated("/account-settings-privacy");
      } else {
        effect := NoEffect;
      }
    }
  }
}
