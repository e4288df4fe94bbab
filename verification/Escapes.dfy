/**
  What the sanitizer does to a stream, from its bytes: text is kept, control bytes
  are dropped, and so is every escape sequence of section 5 of ECMA-48, whole,
  except that the colour form keeps colours. A sequence that breaks off is dropped
  as far as it goes.
 */
module Escapes {
  import opened Sanitizer

  /** A piece of a stream, with the bytes that vary. */
  datatype Piece =
    | Text(bytes: seq<byte>)
    | Control(b: byte)
    | Csi(params: seq<byte>, final: byte)          // ESC [ ... final
    | Osc(text: seq<byte>, bel: bool)              // ESC ] ... BEL, or ESC ] ... ESC \
    | Short(inter: seq<byte>, final: byte)         // ESC ... final
    | CsiCut(params: seq<byte>)                    // the same without their ends
    | OscCut(text: seq<byte>)
    | ShortCut(inter: seq<byte>)
  {
    predicate Valid() {
      match this
      case Text(bytes) => forall k :: 0 <= k < |bytes| ==> bytes[k] >= 0x20 || bytes[k] == 0x0a || bytes[k] == 0x09
      case Control(b) => b < 0x20 && b != 0x0a && b != 0x09 && b != 0x1b
      case Csi(params, final) =>
        && (forall k :: 0 <= k < |params| ==> params[k] >= 0x20 && !(0x40 <= params[k] <= 0x7e))
        && 0x40 <= final <= 0x7e
      case Osc(text, _) => forall k :: 0 <= k < |text| ==> text[k] >= 0x20 || text[k] == 0x09
      case Short(inter, final) =>
        && (forall k :: 0 <= k < |inter| ==> 0x20 <= inter[k] <= 0x2f) && 0x30 <= final <= 0x7e
        && (inter == [] ==> final != 0x5b && final != 0x5d)
      case CsiCut(params) => forall k :: 0 <= k < |params| ==> params[k] >= 0x20 && !(0x40 <= params[k] <= 0x7e)
      case OscCut(text) => forall k :: 0 <= k < |text| ==> text[k] >= 0x20 || text[k] == 0x09
      case ShortCut(inter) => forall k :: 0 <= k < |inter| ==> 0x20 <= inter[k] <= 0x2f
    }

    /** A sequence breaks off at the end of the stream or at a byte that cannot go on or end it. */
    predicate Fits(rest: seq<byte>) {
      rest == [] ||
      match this
      case CsiCut(_) => rest[0] < 0x20
      case OscCut(_) =>
        rest[0] < 0x20 && rest[0] != 0x09 && rest[0] != 0x07 && !(rest[0] == 0x1b && |rest| > 1 && rest[1] == 0x5c)
      case ShortCut(_) => rest[0] < 0x20 || rest[0] > 0x7e
      case _ => true
    }

    function Bytes(): seq<byte> {
      match this
      case Text(bytes) => bytes
      case Control(b) => [b]
      case Csi(params, final) => [0x1b, 0x5b] + params + [final]
      case Osc(text, bel) => [0x1b, 0x5d] + text + if bel then [0x07] else [0x1b, 0x5c]
      case Short(inter, final) => [0x1b] + inter + [final]
      case CsiCut(params) => [0x1b, 0x5b] + params
      case OscCut(text) => [0x1b, 0x5d] + text
      case ShortCut(inter) => [0x1b] + inter
    }

    /** ESC [, then digits, semicolons and colons, then m. */
    predicate Colour() {
      Csi? && final == 0x6d && forall k :: 0 <= k < |params| ==> 0x30 <= params[k] <= 0x3b
    }
  }

  function Stream(pieces: seq<Piece>): seq<byte> {
    if pieces == [] then [] else pieces[0].Bytes() + Stream(pieces[1..])
  }

  ghost predicate Whole(pieces: seq<Piece>) {
    pieces == [] || (pieces[0].Valid() && pieces[0].Fits(Stream(pieces[1..])) && Whole(pieces[1..]))
  }

  /** The text of the stream and, if asked for, its colours. */
  function Kept(pieces: seq<Piece>, colours: bool): seq<byte> {
    if pieces == [] then []
    else if pieces[0].Text? || (colours && pieces[0].Colour()) then pieces[0].Bytes() + Kept(pieces[1..], colours)
    else Kept(pieces[1..], colours)
  }

  lemma {:induction false} CsiEnds(p: seq<byte>, i: nat, n: nat, sgr: bool)
    requires 2 <= i <= n < |p| && 0x40 <= p[n] <= 0x7e
    requires forall k :: i <= k < n ==> p[k] >= 0x20 && !(0x40 <= p[k] <= 0x7e)
    ensures CsiExtent(p, i, sgr)
      == Extent(n + 1, sgr && p[n] == 0x6d && forall k :: i <= k < n ==> 0x30 <= p[k] <= 0x3b)
    decreases n - i
  {
    if i < n {
      CsiEnds(p, i + 1, n, sgr && IsParam(p[i]));
    }
  }

  lemma {:induction false} OscEnds(p: seq<byte>, i: nat, n: nat)
    requires 2 <= i <= n < |p| && (p[n] == 0x07 || (p[n] == 0x1b && n + 1 < |p| && p[n + 1] == 0x5c))
    requires forall k :: i <= k < n ==> p[k] >= 0x20 || p[k] == 0x09
    ensures OscExtent(p, i) == if p[n] == 0x07 then n + 1 else n + 2
    decreases n - i
  {
    if i < n {
      OscEnds(p, i + 1, n);
    }
  }

  lemma {:induction false} ShortEnds(p: seq<byte>, i: nat, n: nat)
    requires 1 <= i <= n < |p| && 0x30 <= p[n] <= 0x7e && forall k :: i <= k < n ==> 0x20 <= p[k] <= 0x2f
    ensures SkipIntermediates(p, i) == n
    decreases n - i
  {
    if i < n {
      ShortEnds(p, i + 1, n);
    }
  }

  lemma {:induction false} CsiBreaks(p: seq<byte>, i: nat, n: nat, sgr: bool)
    requires 2 <= i <= n <= |p| && (n < |p| ==> p[n] < 0x20)
    requires forall k :: i <= k < n ==> p[k] >= 0x20 && !(0x40 <= p[k] <= 0x7e)
    ensures CsiExtent(p, i, sgr) == Extent(n, false)
    decreases n - i
  {
    if i < n {
      CsiBreaks(p, i + 1, n, sgr && IsParam(p[i]));
    }
  }

  lemma {:induction false} OscBreaks(p: seq<byte>, i: nat, n: nat)
    requires 2 <= i <= n <= |p| && OscCut([]).Fits(p[n..])
    requires forall k :: i <= k < n ==> p[k] >= 0x20 || p[k] == 0x09
    ensures OscExtent(p, i) == n
    decreases n - i
  {
    if i < n {
      OscBreaks(p, i + 1, n);
    }
  }

  lemma {:induction false} ShortBreaks(p: seq<byte>, i: nat, n: nat)
    requires 1 <= i <= n <= |p| && (n < |p| ==> p[n] < 0x20 || p[n] > 0x7e)
    requires forall k :: i <= k < n ==> 0x20 <= p[k] <= 0x2f
    ensures SkipIntermediates(p, i) == n
    decreases n - i
  {
    if i < n {
      ShortBreaks(p, i + 1, n);
    }
  }

  /** A sequence that breaks off goes as far as its bytes do, and is no colour. */
  lemma CutIs(piece: Piece, rest: seq<byte>)
    requires piece.Valid() && piece.Fits(rest) && (piece.CsiCut? || piece.OscCut? || piece.ShortCut?)
    ensures SeqExtent(piece.Bytes() + rest) == Extent(|piece.Bytes()|, false)
  {
    var n := |piece.Bytes()|;
    var p := piece.Bytes() + rest;
    assert p[n..] == rest;
    match piece
    case CsiCut(params) =>
      forall k | 2 <= k < n ensures p[k] == params[k - 2] {
      }
      CsiBreaks(p, 2, n, true);
    case OscCut(text) =>
      forall k | 2 <= k < n ensures p[k] == text[k - 2] {
      }
      OscBreaks(p, 2, n);
    case ShortCut(inter) =>
      forall k | 1 <= k < n ensures p[k] == inter[k - 1] {
      }
      ShortBreaks(p, 1, n);
  }

  /** An escape sequence is taken for what it is, whatever follows it. */
  lemma SeqIs(piece: Piece, rest: seq<byte>)
    requires piece.Valid() && (piece.Csi? || piece.Osc? || piece.Short?)
    ensures SeqExtent(piece.Bytes() + rest) == Extent(|piece.Bytes()|, piece.Colour())
  {
    var p := piece.Bytes() + rest;
    match piece
    case Csi(params, final) =>
      forall k | 2 <= k < 2 + |params| ensures p[k] == params[k - 2] {
      }
      CsiEnds(p, 2, 2 + |params|, true);
      assert (forall k :: 2 <= k < 2 + |params| ==> 0x30 <= p[k] <= 0x3b) <==> ColourParams(params) by {
        if forall k :: 2 <= k < 2 + |params| ==> 0x30 <= p[k] <= 0x3b {
          forall k | 0 <= k < |params| ensures 0x30 <= params[k] <= 0x3b {
            assert p[k + 2] == params[k];
          }
        }
      }
    case Osc(text, bel) =>
      forall k | 2 <= k < 2 + |text| ensures p[k] == text[k - 2] {
      }
      OscEnds(p, 2, 2 + |text|);
    case Short(inter, final) =>
      forall k | 1 <= k < 1 + |inter| ensures p[k] == inter[k - 1] {
      }
      assert p[1] == if inter == [] then final else inter[0];
      ShortEnds(p, 1, 1 + |inter|);
  }

  predicate ColourParams(params: seq<byte>) {
    forall k :: 0 <= k < |params| ==> 0x30 <= params[k] <= 0x3b
  }

  lemma PieceCleaned(piece: Piece, rest: seq<byte>, colours: bool)
    requires piece.Valid() && piece.Fits(rest)
    ensures Clean(piece.Bytes() + rest, colours) ==
      if piece.Text? || (colours && piece.Colour()) then piece.Bytes() + Clean(rest, colours) else Clean(rest, colours)
  {
    hide SeqExtent;
    var b := piece.Bytes();
    var p := b + rest;
    assert p[|b|..] == rest && p[..|b|] == b;
    if piece.Text? {
      PlainPrefix(p, |b|, colours);
    } else if piece.CsiCut? || piece.OscCut? || piece.ShortCut? {
      CutIs(piece, rest);
    } else if !piece.Control? {
      SeqIs(piece, rest);
    }
  }

  lemma {:induction false} CleanPieces(pieces: seq<Piece>, colours: bool)
    requires Whole(pieces)
    ensures Clean(Stream(pieces), colours) == Kept(pieces, colours)
  {
    hide Clean, Piece.Valid, Piece.Bytes, Piece.Colour, Piece.Fits;
    if pieces == [] {
      CleanEmpty(colours);
    } else {
      CleanPieces(pieces[1..], colours);
      PieceCleaned(pieces[0], Stream(pieces[1..]), colours);
    }
  }

  // ------------------------------------------------------- any stream is made of pieces

  /** How far bytes for which `inside` holds go on. */
  lemma RunOf(p: seq<byte>, i: nat, inside: byte -> bool) returns (n: nat)
    requires i <= |p|
    ensures i <= n <= |p| && (forall k :: i <= k < n ==> inside(p[k])) && (n < |p| ==> !inside(p[n]))
  {
    n := i;
    while n < |p| && inside(p[n])
      invariant i <= n <= |p| && forall k :: i <= k < n ==> inside(p[k])
    {
      n := n + 1;
    }
  }

  lemma CsiPiece(p: seq<byte>) returns (piece: Piece, n: nat)
    requires |p| >= 2 && p[0] == 0x1b && p[1] == 0x5b
    ensures 0 < n <= |p| && piece.Bytes() == p[..n] && piece.Valid() && piece.Fits(p[n..])
  {
    var m := RunOf(p, 2, b => b >= 0x20 && !(0x40 <= b <= 0x7e));
    assert p[..m] == [0x1b, 0x5b] + p[2..m];
    assert forall k :: 0 <= k < m - 2 ==> p[2..m][k] == p[2 + k];
    if m < |p| && p[m] >= 0x20 {
      piece, n := Csi(p[2..m], p[m]), m + 1;
      assert p[..n] == p[..m] + [p[m]];
    } else {
      piece, n := CsiCut(p[2..m]), m;
    }
  }

  lemma OscPiece(p: seq<byte>) returns (piece: Piece, n: nat)
    requires |p| >= 2 && p[0] == 0x1b && p[1] == 0x5d
    ensures 0 < n <= |p| && piece.Bytes() == p[..n] && piece.Valid() && piece.Fits(p[n..])
  {
    var m := RunOf(p, 2, b => b >= 0x20 || b == 0x09);
    assert p[..m] == [0x1b, 0x5d] + p[2..m];
    assert forall k :: 0 <= k < m - 2 ==> p[2..m][k] == p[2 + k];
    if m < |p| && p[m] == 0x07 {
      piece, n := Osc(p[2..m], true), m + 1;
      assert p[..n] == p[..m] + [p[m]];
    } else if m + 1 < |p| && p[m] == 0x1b && p[m + 1] == 0x5c {
      piece, n := Osc(p[2..m], false), m + 2;
      assert p[..n] == p[..m] + [p[m], p[m + 1]];
    } else {
      piece, n := OscCut(p[2..m]), m;
    }
  }

  lemma ShortPiece(p: seq<byte>) returns (piece: Piece, n: nat)
    requires |p| >= 1 && p[0] == 0x1b && (|p| > 1 ==> p[1] != 0x5b && p[1] != 0x5d)
    ensures 0 < n <= |p| && piece.Bytes() == p[..n] && piece.Valid() && piece.Fits(p[n..])
  {
    var m := RunOf(p, 1, b => 0x20 <= b <= 0x2f);
    assert p[..m] == [0x1b] + p[1..m];
    assert forall k :: 0 <= k < m - 1 ==> p[1..m][k] == p[1 + k];
    if m < |p| && 0x30 <= p[m] <= 0x7e {
      piece, n := Short(p[1..m], p[m]), m + 1;
      assert p[..n] == p[..m] + [p[m]];
    } else {
      piece, n := ShortCut(p[1..m]), m;
    }
  }

  lemma FirstPiece(p: seq<byte>) returns (piece: Piece, n: nat)
    requires p != []
    ensures 0 < n <= |p| && piece.Bytes() == p[..n] && piece.Valid() && piece.Fits(p[n..])
  {
    if p[0] >= 0x20 || p[0] == 0x0a || p[0] == 0x09 {
      piece, n := Text(p[..1]), 1;
    } else if p[0] != 0x1b {
      piece, n := Control(p[0]), 1;
    } else if |p| > 1 && p[1] == 0x5b {
      piece, n := CsiPiece(p);
    } else if |p| > 1 && p[1] == 0x5d {
      piece, n := OscPiece(p);
    } else {
      piece, n := ShortPiece(p);
    }
  }

  lemma {:induction false} InPieces(p: seq<byte>) returns (pieces: seq<Piece>)
    ensures Whole(pieces) && Stream(pieces) == p
    decreases |p|
  {
    hide Piece.Valid, Piece.Bytes, Piece.Fits;
    if p == [] {
      pieces := [];
    } else {
      var piece, n := FirstPiece(p);
      var rest := InPieces(p[n..]);
      pieces := [piece] + rest;
      assert p == p[..n] + p[n..];
    }
  }

  /** Every stream is made of pieces; of them exactly the text is left, and the colours if asked for. */
  lemma CleanExact(p: seq<byte>, colours: bool) returns (pieces: seq<Piece>)
    ensures Whole(pieces) && Stream(pieces) == p && Clean(p, colours) == Kept(pieces, colours)
  {
    hide *;
    pieces := InPieces(p);
    CleanPieces(pieces, colours);
  }
}
