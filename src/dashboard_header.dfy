/** The avatar initials in the dashboard header. */
module DashboardHeader {
  import opened Js

  /** `n[0]` of every word joined: an empty word contributes nothing. */
  function FirstLetters(words: seq<string>): (r: string)
    ensures |r| <= |words|
  {
    if words == [] then ""
    else (if words[0] == "" then "" else [words[0][0]]) + FirstLetters(words[1..])
  }

  /** `getInitials`: 'U' without a name, otherwise the first letter of each word
      separated by single spaces, uppercased and cut to two characters. */
  function Initials(name: Option<string>): (r: string)
    ensures name.None? || name == Some("") ==> r == "U"
    ensures |r| <= 2
    ensures name.Some? && name.value != "" ==>
      var letters := FirstLetters(Split(name.value, ' '));
      |r| == (if |letters| <= 2 then |letters| else 2)
      && forall i :: 0 <= i < |r| ==> r[i] == UpperChar(letters[i])
  {
    if name.None? || name.value == "" then "U"
    else SliceFirst(ToUpper(FirstLetters(Split(name.value, ' '))), 2)
  }

  /** `s.slice(0, n)` */
  function SliceFirst(s: string, n: nat): (r: string)
    ensures |r| == if |s| <= n then |s| else n
    ensures r <= s
  {
    if |s| <= n then s else s[..n]
  }

  /** A one-word name gives its first letter, uppercased. */
  lemma OneWord(w: string)
    requires w != [] && forall i :: 0 <= i < |w| ==> w[i] != ' '
    ensures Initials(Some(w)) == [UpperChar(w[0])]
  {
    SplitJoin([w], ' ');
    assert Join([w], ' ') == w;
    assert FirstLetters([w]) == [w[0]];
  }

  /** Two words give their two first letters, uppercased. */
  lemma TwoWords(first: string, last: string)
    requires first != [] && last != []
    requires forall i :: 0 <= i < |first| ==> first[i] != ' '
    requires forall i :: 0 <= i < |last| ==> last[i] != ' '
    ensures Initials(Some(first + " " + last)) == [UpperChar(first[0]), UpperChar(last[0])]
  {
    var parts := [first, last];
    assert Join(parts, ' ') == first + " " + last by {
      assert parts[1..] == [last];
    }
    SplitJoin(parts, ' ');
    assert FirstLetters(parts[1..]) == [last[0]];
    assert FirstLetters(parts) == [first[0], last[0]];
  }
}
