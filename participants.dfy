/** The free-text participants field of the event forms: the list is shown
    joined by ", " and read back by splitting on commas, trimming every
    piece and dropping the empty ones (src/components/AddEvent.tsx and
    src/components/EventDetail.tsx use the same expression). */
module Participants {
  import opened Lists
  import opened Text

  predicate NonEmpty(s: string)
  {
    s != ""
  }

  /** What a participant name parsed from the field looks like. */
  predicate IsCleanName(p: string)
  {
    p != "" && IsTrimmed(p) && ',' !in p
  }

  predicate AllClean(ps: seq<string>)
  {
    forall p :: p in ps ==> IsCleanName(p)
  }

  /** `raw.split(',').map(p => p.trim()).filter(p => p)`: every name is
      non-empty, trimmed and free of commas. */
  function Parse(raw: string): (r: seq<string>)
    ensures AllClean(r)
  {
    var pieces := Split(raw);
    var trimmed := Map(pieces, Trim);
    assert forall q :: q in trimmed ==> exists i :: 0 <= i < |pieces| && q == Trim(pieces[i]);
    Filter(trimmed, NonEmpty)
  }

  /** `participants.join(', ')`. */
  function Format(ps: seq<string>): string
  {
    Join(ps, ", ")
  }

  /** An empty field, or one holding only commas and whitespace, gives no
      participants. */
  lemma ParseBlank(raw: string)
    requires forall c :: c in raw ==> c == ',' || IsWhitespace(c)
    ensures Parse(raw) == []
  {
    var pieces := Split(raw);
    var trimmed := Map(pieces, Trim);
    forall i | 0 <= i < |pieces|
      ensures trimmed[i] == ""
    {
      assert pieces[i] in pieces;
      TrimBlank(pieces[i]);
    }
    FilterKeepsNone(trimmed, NonEmpty);
  }

  /** Reading back the displayed list gives the list, when every name is
      clean. */
  lemma ParseFormat(ps: seq<string>)
    requires AllClean(ps)
    ensures Parse(Format(ps)) == ps
  {
    ParseAfterBlank("", ps);
    assert "" + Join(ps, ", ") == Join(ps, ", ");
  }

  /** Reading, displaying and reading again gives what the first reading
      gave: saving an event twice does not change its participants. */
  lemma ParseStable(raw: string)
    ensures Parse(Format(Parse(raw))) == Parse(raw)
  {
    ParseFormat(Parse(raw));
  }

  /** The names a comma-free piece contributes. */
  function PieceNames(a: string): seq<string>
  {
    if Trim(a) == "" then [] else [Trim(a)]
  }

  lemma ParseOnePiece(a: string)
    requires ',' !in a
    ensures Parse(a) == PieceNames(a)
  {
    SplitNoComma(a);
    assert Map([a], Trim) == [Trim(a)];
  }

  lemma ParseFirstPiece(a: string, b: string)
    requires ',' !in a
    ensures Parse(a + "," + b) == PieceNames(a) + Parse(b)
  {
    var rest := Map(Split(b), Trim);
    calc {
      Parse(a + "," + b);
      Filter(Map(Split(a + "," + b), Trim), NonEmpty);
      { SplitAtComma(a, b); }
      Filter(Map([a] + Split(b), Trim), NonEmpty);
      { MapCons(a, Split(b), Trim); }
      Filter([Trim(a)] + rest, NonEmpty);
      { FilterCons(Trim(a), rest, NonEmpty); }
      PieceNames(a) + Filter(rest, NonEmpty);
    }
  }

  lemma {:induction false} ParseAfterBlank(w: string, ps: seq<string>)
    requires forall c :: c in w ==> IsWhitespace(c)
    requires AllClean(ps)
    ensures Parse(w + Join(ps, ", ")) == ps
    decreases |ps|
  {
    assert ',' !in w;
    if ps == [] {
      assert w + Join(ps, ", ") == w;
      ParseOnePiece(w);
      TrimBlank(w);
    } else if |ps| == 1 {
      assert ps[0] in ps;
      ParseLastName(w, ps[0]);
      assert w + Join(ps, ", ") == w + ps[0];
      assert [ps[0]] == ps;
    } else {
      var rest := ps[1..];
      assert ps[0] in ps;
      assert forall p :: p in rest ==> p in ps;
      ParseAfterBlank(" ", rest);
      HeadTail(ps);
      ParseNextName(w, ps[0], rest);
    }
  }

  lemma HeadTail(ps: seq<string>)
    requires ps != []
    ensures [ps[0]] + ps[1..] == ps
  {
  }

  lemma ParseLastName(w: string, p: string)
    requires forall c :: c in w ==> IsWhitespace(c)
    requires IsCleanName(p)
    ensures Parse(w + p) == [p]
  {
    ParseOnePiece(w + p);
    TrimAfterBlank(w, p);
  }

  lemma ParseNextName(w: string, p: string, rest: seq<string>)
    requires forall c :: c in w ==> IsWhitespace(c)
    requires IsCleanName(p) && rest != []
    ensures Parse(w + Join([p] + rest, ", ")) == [p] + Parse(" " + Join(rest, ", "))
  {
    var more := Join(rest, ", ");
    assert ([p] + rest)[1..] == rest;
    assert w + Join([p] + rest, ", ") == (w + p) + "," + (" " + more);
    ParseFirstPiece(w + p, " " + more);
    TrimAfterBlank(w, p);
  }
}
