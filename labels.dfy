/** `snakeToCapitalized`: a snake-case identifier as a label, words split on
    `_`, each word's first character upper-cased, words joined by spaces. */
module Labels {
  import opened Strings

  /** `toUpperCase` on one ASCII character: `a`–`z` map to `A`–`Z`, every
      other character is kept. */
  function Upper(c: char): (u: char)
    ensures 'a' <= c <= 'z' ==> 'A' <= u <= 'Z' && u as int - c as int == 'A' as int - 'a' as int
    ensures !('a' <= c <= 'z') ==> u == c
  {
    if 'a' <= c <= 'z' then (c as int - 'a' as int + 'A' as int) as char else c
  }

  /** `word.charAt(0).toUpperCase() + word.slice(1)`; the empty word stays
      empty. */
  function Capitalize(w: string): string
  {
    if w == [] then "" else [Upper(w[0])] + w[1..]
  }

  function CapitalizeAll(ws: seq<string>): (r: seq<string>)
    ensures |r| == |ws|
    ensures forall i :: 0 <= i < |ws| ==> r[i] == Capitalize(ws[i])
  {
    seq(|ws|, i requires 0 <= i < |ws| => Capitalize(ws[i]))
  }

  /** `str.split("_").map(capitalize).join(" ")`. */
  function SnakeToCapitalized(s: string): string
  {
    Join(CapitalizeAll(Split(s, '_')), ' ')
  }

  /** What `SnakeToCapitalized` puts at position `i` of `s`: a space for an
      underscore, the upper-cased character at the start of a word, the
      character itself elsewhere. */
  function LabelChar(s: string, i: nat): char
    requires i < |s|
  {
    if s[i] == '_' then ' '
    else if i == 0 || s[i - 1] == '_' then Upper(s[i])
    else s[i]
  }

  /** The label has the identifier's length, and each of its characters is
      what `LabelChar` says; in particular `""` maps to `""`. */
  lemma {:induction false} SnakeToCapitalizedPointwise(s: string)
    ensures |SnakeToCapitalized(s)| == |s|
    ensures forall i :: 0 <= i < |s| ==> SnakeToCapitalized(s)[i] == LabelChar(s, i)
    decreases |s|
  {
    if '_' !in s {
      SplitNoSeparator(s, '_');
      assert CapitalizeAll([s]) == [Capitalize(s)];
    } else {
      var k := FirstIndex(s, '_');
      var w, t := s[..k], s[k + 1..];
      assert s == w + ['_'] + t;
      assert '_' !in w by {
        forall j | 0 <= j < |w| ensures w[j] != '_' { }
      }
      SnakeToCapitalizedPointwise(t);
      PointwiseCons(w, t);
    }
  }

  /** The pointwise description carries over from an identifier to the
      identifier with one more word in front. */
  lemma PointwiseCons(w: string, t: string)
    requires '_' !in w
    requires |SnakeToCapitalized(t)| == |t|
    requires forall i :: 0 <= i < |t| ==> SnakeToCapitalized(t)[i] == LabelChar(t, i)
    ensures var s := w + ['_'] + t;
            |SnakeToCapitalized(s)| == |s| &&
            forall i :: 0 <= i < |s| ==> SnakeToCapitalized(s)[i] == LabelChar(s, i)
  {
    var s := w + ['_'] + t;
    var k := |w|;
    LabelCons(w, t);
    var r := SnakeToCapitalized(s);
    var rt := SnakeToCapitalized(t);
    forall i | 0 <= i < |s|
      ensures r[i] == LabelChar(s, i)
    {
      if i < k {
        assert r[i] == Capitalize(w)[i];
      } else if i > k {
        assert r[i] == rt[i - k - 1] && t[i - k - 1] == s[i];
        if i > k + 1 {
          assert t[i - k - 2] == s[i - 1];
        }
      }
    }
  }

  /** A word and an underscore in front of an identifier label as the
      capitalized word and a space in front of its label. */
  lemma LabelCons(w: string, t: string)
    requires '_' !in w
    ensures SnakeToCapitalized(w + ['_'] + t) == Capitalize(w) + [' '] + SnakeToCapitalized(t)
  {
    SplitCons(w, t, '_');
    var rest := Split(t, '_');
    var caps := CapitalizeAll([w] + rest);
    assert caps == [Capitalize(w)] + CapitalizeAll(rest);
    assert caps[1..] == CapitalizeAll(rest);
  }

  /** The first position of `c` in `s`; every earlier character differs. */
  function FirstIndex(s: string, c: char): (k: nat)
    requires c in s
    ensures k < |s| && s[k] == c
    ensures forall j :: 0 <= j < k ==> s[j] != c
  {
    if s[0] == c then 0 else 1 + FirstIndex(s[1..], c)
  }

  /** Labels hold no underscore. */
  lemma NoUnderscores(s: string)
    ensures '_' !in SnakeToCapitalized(s)
  {
    SnakeToCapitalizedPointwise(s);
    var r := SnakeToCapitalized(s);
    forall i | 0 <= i < |r| ensures r[i] != '_' {
      assert r[i] == LabelChar(s, i);
    }
  }

  /** An identifier without underscores or lower-case initial is its own
      label. */
  lemma PlainWordUnchanged(s: string)
    requires '_' !in s && (s == [] || !('a' <= s[0] <= 'z'))
    ensures SnakeToCapitalized(s) == s
  {
    SnakeToCapitalizedPointwise(s);
  }
}
