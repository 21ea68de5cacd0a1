// The language of a task's events: prefixes of (Create Start? Exit Delete)*, once as
// a regular expression and once as an automaton, and that the two agree.
module ShimWords {
  import opened Common

  datatype Letter = C | S | X | D

  // One round of the expression, with or without the Start.
  function Round(start: bool): seq<Letter> { if start then [C, S, X, D] else [C, X, D] }

  // A word of the expression: one round per element.
  function Spell(starts: seq<bool>): seq<Letter> {
    if starts == [] then [] else Spell(starts[..|starts| - 1]) + Round(starts[|starts| - 1])
  }

  ghost predicate InLanguage(word: seq<Letter>) { exists starts :: word <= Spell(starts) }

  datatype Phase = Absent | Made | Live | Over

  function Next(p: Phase, l: Letter): Option<Phase> {
    match (p, l)
    case (Absent, C) => Some(Made)
    case (Made, S) => Some(Live)
    case (Made, X) => Some(Over)
    case (Live, X) => Some(Over)
    case (Over, D) => Some(Absent)
    case _ => None
  }

  function Walk(word: seq<Letter>): Option<Phase> {
    if word == [] then Some(Absent)
    else
      match Walk(word[..|word| - 1])
      case None => None
      case Some(p) => Next(p, word[|word| - 1])
  }

  lemma WalkSnoc(word: seq<Letter>, l: Letter)
    ensures Walk(word + [l]) == match Walk(word) case None => None case Some(p) => Next(p, l)
  {
    assert (word + [l])[..|word|] == word;
  }

  // Where the automaton is in the last, unfinished round.
  predicate Tail(p: Phase, tail: seq<Letter>) {
    match p
    case Absent => tail == []
    case Made => tail == [C]
    case Live => tail == [C, S]
    case Over => tail == [C, X] || tail == [C, S, X]
  }

  lemma {:induction false} WalkedSpells(word: seq<Letter>) returns (starts: seq<bool>, tail: seq<Letter>)
    requires Walk(word).Some?
    ensures word == Spell(starts) + tail && Tail(Walk(word).value, tail)
  {
    if word == [] {
      starts, tail := [], [];
    } else {
      var l := word[|word| - 1];
      var init := word[..|word| - 1];
      assert word == init + [l];
      starts, tail := WalkedSpells(init);
      starts, tail := OneLetter(starts, tail, Walk(init).value, l);
    }
  }

  // A letter goes to the tail, or completes it to a round.
  lemma OneLetter(starts: seq<bool>, tail: seq<Letter>, p: Phase, l: Letter)
    returns (starts': seq<bool>, tail': seq<Letter>)
    requires Tail(p, tail) && Next(p, l).Some?
    ensures Spell(starts) + tail + [l] == Spell(starts') + tail' && Tail(Next(p, l).value, tail')
  {
    if l == D {
      var start := |tail| == 3;
      assert tail + [D] == Round(start);
      assert (starts + [start])[..|starts|] == starts;
      starts', tail' := starts + [start], [];
    } else {
      starts', tail' := starts, tail + [l];
    }
  }

  // A tail can be finished to a round.
  lemma TailIsPrefix(starts: seq<bool>, p: Phase, tail: seq<Letter>)
    requires Tail(p, tail)
    ensures InLanguage(Spell(starts) + tail)
  {
    var start := p.Live? || |tail| == 3;
    assert (starts + [start])[..|starts|] == starts;
    assert tail <= Round(start);
    assert Spell(starts) + tail <= Spell(starts + [start]);
  }

  lemma RoundWalks(word: seq<Letter>, start: bool)
    requires Walk(word) == Some(Absent)
    ensures Walk(word + Round(start)) == Some(Absent)
  {
    WalkSnoc(word, C);
    if start {
      WalkSnoc(word + [C], S);
      WalkSnoc(word + [C] + [S], X);
      WalkSnoc(word + [C] + [S] + [X], D);
      assert word + Round(true) == word + [C] + [S] + [X] + [D];
    } else {
      WalkSnoc(word + [C], X);
      WalkSnoc(word + [C] + [X], D);
      assert word + Round(false) == word + [C] + [X] + [D];
    }
  }

  lemma {:induction false} SpellWalks(starts: seq<bool>)
    ensures Walk(Spell(starts)) == Some(Absent)
  {
    if starts != [] {
      SpellWalks(starts[..|starts| - 1]);
      RoundWalks(Spell(starts[..|starts| - 1]), starts[|starts| - 1]);
    }
  }

  lemma {:induction false} PrefixWalks(word: seq<Letter>, longer: seq<Letter>)
    requires word <= longer && Walk(longer).Some?
    ensures Walk(word).Some?
    decreases |longer|
  {
    if word != longer {
      assert word <= longer[..|longer| - 1];
      PrefixWalks(word, longer[..|longer| - 1]);
    } else {
      assert word == longer;
    }
  }

  // The automaton accepts exactly the prefixes of the expression's words.
  lemma WalksExactly(word: seq<Letter>)
    ensures Walk(word).Some? <==> InLanguage(word)
  {
    if Walk(word).Some? {
      var starts, tail := WalkedSpells(word);
      TailIsPrefix(starts, Walk(word).value, tail);
    }
    if InLanguage(word) {
      var starts :| word <= Spell(starts);
      SpellWalks(starts);
      PrefixWalks(word, Spell(starts));
    }
  }
}
