/**
 * The initials of components/ui/avatar.tsx: split the full name on single
 * spaces, take each piece's first character (an empty piece gives nothing),
 * join, upper-case and keep the first two characters.
 */
module Avatar {
  import opened Text

  /** `s.split(" ")`: the pieces between spaces, empty ones included; never an empty list. */
  function Split(s: string): (words: seq<string>)
    ensures |words| >= 1
    ensures forall k :: 0 <= k < |words| ==> ' ' !in words[k]
  {
    if s == [] then [[]]
    else if s[0] == ' ' then [[]] + Split(s[1..])
    else
      var rest := Split(s[1..]);
      [[s[0]] + rest[0]] + rest[1..]
  }

  /** `words.join(" ")` */
  function JoinSpaces(words: seq<string>): string
    requires |words| >= 1
  {
    if |words| == 1 then words[0] else words[0] + " " + JoinSpaces(words[1..])
  }

  /** Joining the pieces with spaces gives the name back. */
  lemma {:induction false} JoinSplit(s: string)
    ensures JoinSpaces(Split(s)) == s
  {
    if s != [] {
      var rest := Split(s[1..]);
      JoinSplit(s[1..]);
      if s[0] == ' ' {
        assert ([[]] + rest)[1..] == rest;
      } else {
        var words := Split(s);
        assert words[1..] == rest[1..];
        if |rest| > 1 {
          assert JoinSpaces(rest) == rest[0] + " " + JoinSpaces(rest[1..]);
        }
      }
    }
  }

  /** `.map((n) => n[0]).join("")`: an empty piece's `n[0]` is undefined and joins as "". */
  function FirstChars(words: seq<string>): string {
    if words == [] then ""
    else (if words[0] == [] then "" else [words[0][0]]) + FirstChars(words[1..])
  }

  /**
   * An independent reading of the same thing: the characters of `s` that
   * begin a run of non-spaces, scanning left to right. `atStart` says the
   * previous character was a space or there was none.
   */
  function WordStarts(s: string, atStart: bool): (r: string)
    ensures |r| <= |s|
  {
    if s == [] then []
    else if s[0] == ' ' then WordStarts(s[1..], true)
    else (if atStart then [s[0]] else []) + WordStarts(s[1..], false)
  }

  /** The first characters of the pieces are the characters that begin words. */
  lemma {:induction false} FirstCharsAreWordStarts(s: string)
    ensures FirstChars(Split(s)) == WordStarts(s, true)
    ensures FirstChars(Split(s)[1..]) == WordStarts(s, false)
  {
    if s != [] {
      var rest := Split(s[1..]);
      FirstCharsAreWordStarts(s[1..]);
      if s[0] == ' ' {
        assert Split(s) == [[]] + rest;
        assert Split(s)[1..] == rest;
      } else {
        var words := Split(s);
        assert words[0] == [s[0]] + rest[0];
        assert words[1..] == rest[1..];
      }
    }
  }

  /** `.slice(0, 2)` */
  function TakeTwo(s: string): (r: string)
    ensures |r| == if |s| < 2 then |s| else 2
    ensures r == s[..|r|]
  {
    if |s| < 2 then s else s[..2]
  }

  /**
   * `initials`: at most two characters, the upper-cased first characters of
   * the first two words of the name, in their order.
   */
  function Initials(fullName: string): (r: string)
    ensures |r| <= 2
    ensures r == TakeTwo(Upper(WordStarts(fullName, true)))
  {
    FirstCharsAreWordStarts(fullName);
    TakeTwo(Upper(FirstChars(Split(fullName))))
  }

  /** Spaces before, between and after words change nothing. */
  lemma {:induction false} ExtraSpacesIgnored(s: string, atStart: bool)
    ensures WordStarts(" " + s, atStart) == WordStarts(s, true)
    ensures WordStarts(s + " ", atStart) == WordStarts(s, atStart)
    decreases |s|
  {
    assert (" " + s)[1..] == s;
    if s != [] {
      assert (s + " ")[1..] == s[1..] + " ";
      ExtraSpacesIgnored(s[1..], s[0] == ' ');
      ExtraSpacesIgnored(s[1..], false);
    } else {
      assert " "[1..] == [];
    }
  }

  /** A word contributes its first character, and only when it starts after a space or at the start. */
  lemma {:induction false} WordThen(w: string, rest: string, atStart: bool)
    requires w != [] && ' ' !in w
    ensures WordStarts(w + rest, atStart) == (if atStart then [w[0]] else []) + WordStarts(rest, false)
    decreases |w|
  {
    assert (w + rest)[0] == w[0];
    assert (w + rest)[1..] == w[1..] + rest;
    if |w| > 1 {
      WordThen(w[1..], rest, false);
    } else {
      assert w[1..] + rest == rest;
    }
  }

  /** Two words separated by one space give their two first characters, upper-cased. */
  lemma TwoWords(first: string, second: string)
    requires first != [] && ' ' !in first
    requires second != [] && ' ' !in second
    ensures Initials(first + " " + second) == [UpperChar(first[0]), UpperChar(second[0])]
  {
    assert first + " " + second == first + (" " + (second + ""));
    WordThen(first, " " + (second + ""), true);
    ExtraSpacesIgnored(second + "", false);
    WordThen(second, "", true);
    assert WordStarts(first + " " + second, true) == [first[0], second[0]];
  }

  lemma InitialsJohnDoe()
    ensures Initials("John Doe") == "JD"
  {
    assert "John Doe" == "John" + " " + "Doe";
    TwoWords("John", "Doe");
  }

  lemma StartsOfBoCy()
    ensures WordStarts(" Bo Cy", false) == "BC"
  {
    assert " Bo Cy" == " " + ("Bo" + " Cy");
    ExtraSpacesIgnored("Bo" + " Cy", false);
    WordThen("Bo", " Cy", true);
    assert " Cy" == " " + ("Cy" + "");
    ExtraSpacesIgnored("Cy", false);
    WordThen("Cy", "", true);
  }

  /** A third word's initial is cut off. */
  lemma InitialsThreeWords()
    ensures Initials("Al Bo Cy") == "AB"
  {
    assert "Al Bo Cy" == "Al" + " Bo Cy";
    WordThen("Al", " Bo Cy", true);
    StartsOfBoCy();
    assert Upper("ABC") == "ABC";
  }

  lemma InitialsEmpty()
    ensures Initials("") == ""
  {
  }

  /** Leading spaces give empty pieces and no initials; lower case is raised. */
  lemma InitialsLeadingSpaces()
    ensures Initials("  ada") == "A"
  {
    assert "  ada" == " " + (" " + ("ada" + ""));
    ExtraSpacesIgnored(" " + "ada", true);
    ExtraSpacesIgnored("ada", true);
    WordThen("ada", "", true);
    assert WordStarts("  ada", true) == "a";
  }
}
