/** A to-do item and the normalisation of its description. */
module Tasks {

  /** One task record: the persisted dictionary with keys
      'Description', 'Priority' and 'Done'. */
  datatype Task = Task(description: string, priority: int, done: bool)

  predicate EndsWithPeriod(s: string) {
    |s| > 0 && s[|s| - 1] == '.'
  }

  /** Python's `' '.join(words)`: the words separated by single spaces.
      The joined text starts with the first word and ends with the last. */
  function Join(words: seq<string>): (text: string)
    ensures |words| == 0 ==> text == ""
    ensures |words| > 0 ==> |words[0]| <= |text| && text[..|words[0]|] == words[0]
    ensures |words| > 0 ==>
              |words[|words| - 1]| <= |text| && text[|text| - |words[|words| - 1]|..] == words[|words| - 1]
  {
    if |words| == 0 then ""
    else if |words| == 1 then words[0]
    else words[0] + " " + Join(words[1..])
  }

  /** Python's `s.split(' ')`: the pieces between single spaces, empty pieces kept.
      It is the inverse that Join is checked against. */
  function Split(s: string): (pieces: seq<string>)
    ensures |pieces| > 0
  {
    if s == [] then [""]
    else
      var rest := Split(s[1..]);
      if s[0] == ' ' then [""] + rest
      else [[s[0]] + rest[0]] + rest[1..]
  }

  /** The description text `add` stores: the words joined by single spaces,
      with a period appended when the joined text does not end in one. */
  function NormaliseDescription(words: seq<string>): (text: string)
    ensures EndsWithPeriod(text)
    ensures EndsWithPeriod(Join(words)) ==> text == Join(words)
    ensures !EndsWithPeriod(Join(words)) ==> text == Join(words) + "."
  {
    var joined := Join(words);
    if EndsWithPeriod(joined) then joined else joined + "."
  }

  /** A word list with no space inside any word is recovered by splitting
      its joined text: joining loses nothing. */
  lemma {:induction false} SplitJoin(words: seq<string>)
    requires |words| > 0
    requires forall i :: 0 <= i < |words| ==> ' ' !in words[i]
    ensures Split(Join(words)) == words
  {
    if |words| == 1 {
      SplitNoSpace(words[0], "");
      assert words[0] + "" == words[0];
    } else {
      var rest := words[1..];
      forall i | 0 <= i < |rest|
        ensures ' ' !in rest[i]
      {
        assert rest[i] == words[i + 1];
      }
      JoinCons(words);
      SplitGlue(words[0], Join(rest));
      SplitJoin(rest);
      assert words == [words[0]] + rest;
    }
  }

  /** Joining two or more words puts the first word and a space before the rest. */
  lemma JoinCons(words: seq<string>)
    requires |words| > 1
    ensures Join(words) == words[0] + (" " + Join(words[1..]))
  {
  }

  /** A space-free word, a space and then `t` split into the word followed by the pieces of `t`. */
  lemma SplitGlue(w: string, t: string)
    requires ' ' !in w
    ensures Split(w + (" " + t)) == [w] + Split(t)
  {
    SplitNoSpace(w, " " + t);
    assert (" " + t)[1..] == t;
    var rest := Split(" " + t);
    assert rest == [""] + Split(t);
    assert w + rest[0] == w;
  }

  /** Splitting a space-free prefix glued to `t` extends the first piece of `t`. */
  lemma {:induction false} SplitNoSpace(w: string, t: string)
    requires ' ' !in w
    ensures Split(w + t) == [w + Split(t)[0]] + Split(t)[1..]
  {
    if w == [] {
      assert w + t == t;
      var pieces := Split(t);
      assert w + pieces[0] == pieces[0];
      assert pieces == [pieces[0]] + pieces[1..];
    } else {
      assert (w + t)[1..] == w[1..] + t;
      assert w[0] != ' ';
      SplitNoSpace(w[1..], t);
      assert [w[0]] + (w[1..] + Split(t)[0]) == w + Split(t)[0];
    }
  }

  /** Normalising an already normalised description changes nothing. */
  lemma NormaliseIdempotent(words: seq<string>)
    ensures NormaliseDescription([NormaliseDescription(words)]) == NormaliseDescription(words)
  {
  }

  /** The normalised text starts with the joined words and adds at most the period. */
  lemma NormaliseKeepsWords(words: seq<string>)
    ensures var text := NormaliseDescription(words);
      |Join(words)| <= |text| <= |Join(words)| + 1 && text[..|Join(words)|] == Join(words)
  {
  }
}
