/** The page header: the avatar initials of the signed-in user and the
    travel-documents list with its count and empty state. */
module Header {
  import opened Text
  import opened Wrappers

  /** `s.split(' ')`: the pieces between single spaces, empty ones included. */
  function SplitSpaces(s: string): (r: seq<string>)
    ensures |r| > 0
    ensures forall k | 0 <= k < |r| :: ' ' !in r[k]
  {
    if s == [] then [""]
    else if s[0] == ' ' then [""] + SplitSpaces(s[1..])
    else
      var rest := SplitSpaces(s[1..]);
      [[s[0]] + rest[0]] + rest[1..]
  }

  lemma JoinCons(c: char, ws: seq<string>, sep: string)
    requires ws != []
    ensures Join([[c] + ws[0]] + ws[1..], sep) == [c] + Join(ws, sep)
  {
    var r := [[c] + ws[0]] + ws[1..];
    assert r[1..] == ws[1..];
  }

  /** Joining the pieces with single spaces gives the name back. */
  lemma {:induction false} SplitJoin(s: string)
    ensures Join(SplitSpaces(s), " ") == s
  {
    if s != [] {
      var rest := SplitSpaces(s[1..]);
      SplitJoin(s[1..]);
      if s[0] == ' ' {
        assert ([""] + rest)[1..] == rest;
        assert s == " " + s[1..];
      } else {
        JoinCons(s[0], rest, " ");
        assert s == [s[0]] + s[1..];
      }
    }
  }

  /** The first character of each piece, `word[0]`; an empty piece gives
      `undefined`, which joins as nothing. */
  function Heads(ps: seq<string>): (r: string)
    ensures |r| <= |ps|
  {
    if ps == [] then [] else (if ps[0] == [] then [] else [ps[0][0]]) + Heads(ps[1..])
  }

  /** The number of non-empty pieces. */
  function Words(ps: seq<string>): nat {
    if ps == [] then 0 else (if ps[0] == [] then 0 else 1) + Words(ps[1..])
  }

  /** The heads keep the pieces' order: they distribute over concatenation. */
  lemma {:induction false} HeadsAppend(ps: seq<string>, qs: seq<string>)
    ensures Heads(ps + qs) == Heads(ps) + Heads(qs)
  {
    if ps == [] {
      assert ps + qs == qs;
    } else {
      assert (ps + qs)[0] == ps[0] && (ps + qs)[1..] == ps[1..] + qs;
      HeadsAppend(ps[1..], qs);
    }
  }

  /** One head per non-empty piece. */
  lemma {:induction false} HeadsCount(ps: seq<string>)
    ensures |Heads(ps)| == Words(ps)
  {
    if ps != [] {
      HeadsCount(ps[1..]);
    }
  }

  /** The non-empty pieces, in order. */
  function NonEmpty(ps: seq<string>): (r: seq<string>)
    ensures forall k | 0 <= k < |r| :: r[k] != []
  {
    if ps == [] then [] else (if ps[0] == [] then [] else [ps[0]]) + NonEmpty(ps[1..])
  }

  /** The heads are the first characters of the non-empty pieces, in order. */
  lemma {:induction false} HeadsOfNonEmpty(ps: seq<string>)
    ensures |Heads(ps)| == |NonEmpty(ps)|
    ensures forall k | 0 <= k < |Heads(ps)| :: Heads(ps)[k] == NonEmpty(ps)[k][0]
  {
    if ps != [] {
      HeadsOfNonEmpty(ps[1..]);
    }
  }

  /** The avatar initials: `name.split(' ').map(word => word[0]).join('').toUpperCase()`. */
  function Initials(name: string): (r: string)
    ensures |r| <= |SplitSpaces(name)|
    ensures |r| == |NonEmpty(SplitSpaces(name))|
    ensures forall k | 0 <= k < |r| :: r[k] == UpperChar(NonEmpty(SplitSpaces(name))[k][0])
  {
    HeadsOfNonEmpty(SplitSpaces(name));
    Upper(Heads(SplitSpaces(name)))
  }

  /** Initials are one letter per word, however many spaces separate the words. */
  lemma InitialsCount(name: string)
    ensures |Initials(name)| == Words(SplitSpaces(name))
  {
    HeadsCount(SplitSpaces(name));
  }

  /** A piece without spaces splits to itself. */
  lemma {:induction false} SplitWord(w: string)
    requires ' ' !in w
    ensures SplitSpaces(w) == [w]
  {
    if w != [] {
      assert w[0] in w;
      assert forall c | c in w[1..] :: c in w;
      SplitWord(w[1..]);
      assert [w[0]] + w[1..] == w;
    }
  }

  /** A piece without spaces, then a space, then the rest. */
  lemma {:induction false} SplitFirst(w: string, t: string)
    requires ' ' !in w
    ensures SplitSpaces(w + " " + t) == [w] + SplitSpaces(t)
  {
    if w == [] {
      assert w + " " + t == " " + t;
      assert (" " + t)[1..] == t;
    } else {
      assert w[0] in w;
      assert forall c | c in w[1..] :: c in w;
      assert (w + " " + t)[0] == w[0] && (w + " " + t)[1..] == w[1..] + " " + t;
      SplitFirst(w[1..], t);
      assert [w[0]] + w[1..] == w;
    }
  }

  lemma PriyaPieces()
    ensures SplitSpaces("Priya Sharma") == ["Priya", "Sharma"]
  {
    assert "Priya Sharma" == "Priya" + " " + "Sharma";
    SplitFirst("Priya", "Sharma");
    SplitWord("Sharma");
  }

  lemma PriyaSharma()
    ensures Initials("Priya Sharma") == "PS"
  {
    PriyaPieces();
  }

  /** A leading space and a doubled space leave empty pieces around two words. */
  lemma {:induction false} PaddedPieces(w: string, u: string)
    requires ' ' !in w && ' ' !in u
    ensures SplitSpaces(" " + (w + " " + (" " + u))) == ["", w, "", u]
  {
    var t := " " + u;
    var m := w + " " + t;
    SplitWord(u);
    SplitFirst("", u);
    assert "" + " " + u == t;
    assert SplitSpaces(t) == ["", u];
    SplitFirst(w, t);
    assert SplitSpaces(m) == [w, "", u];
    SplitFirst("", m);
    assert "" + " " + m == " " + m;
  }

  lemma PaddedShape(name: string)
    requires name == " priya  sharma"
    ensures SplitSpaces(name) == ["", "priya", "", "sharma"]
  {
    var w, u := name[1..6], name[8..];
    assert w == "priya" && u == "sharma";
    assert name == " " + (w + " " + (" " + u));
    PaddedPieces(w, u);
  }

  /** Leading and doubled spaces contribute nothing. */
  lemma PaddedName(name: string)
    requires name == " priya  sharma"
    ensures Initials(name) == "PS"
  {
    PaddedShape(name);
    assert Heads(["", "priya", "", "sharma"]) == "ps";
    assert Upper("ps") == "PS";
  }

  /** What the documents panel shows for a list. */
  datatype Panel = Panel(count: nat, downloadAll: bool, emptyState: bool)

  function PanelFor(documents: seq<string>): (p: Panel)
    ensures p.count == |documents|
    ensures p.downloadAll <==> documents != []
    ensures p.emptyState <==> documents == []
  {
    Panel(|documents|, |documents| > 0, |documents| == 0)
  }

  /** The uploaded travel documents, by file name. */
  class DocumentShelf {
    var documents: seq<string>

    constructor ()
      ensures documents == []
    {
      documents := [];
    }

    /** Appends the chosen files' names in selection order; no file list, no change. */
    method HandleFileUpload(files: Option<seq<string>>)
      modifies this
      ensures files.None? ==> documents == old(documents)
      ensures files.Some? ==> documents == old(documents) + files.value
    {
      if files.Some? {
        documents := documents + files.value;
      }
    }

    function View(): (p: Panel)
      reads this
      ensures p == PanelFor(documents)
    {
      PanelFor(documents)
    }
  }

  /** Two uploads: the count is the number of names, and the empty state is gone. */
  method UploadTwice() returns (before: Panel, after: Panel, names: seq<string>)
    ensures before == Panel(0, false, true)
    ensures after == Panel(3, true, false)
    ensures names == ["passport.pdf", "visa.pdf", "ticket.pdf"]
  {
    var shelf := new DocumentShelf();
    before := shelf.View();
    shelf.HandleFileUpload(Some(["passport.pdf"]));
    shelf.HandleFileUpload(None);
    shelf.HandleFileUpload(Some(["visa.pdf", "ticket.pdf"]));
    after := shelf.View();
    names := shelf.documents;
  }
}
