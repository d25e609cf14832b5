// `Board.Castling_Rights` of src/modules/board.py: the castling permissions as
// a letter string ("KQkq", a subset of it, or "-") and the history log that
// undo pops.
module Castling {
  import opened Base
  import opened Pieces
  import opened Moves

  /** `str.replace(ch, '')`: every occurrence of `ch` removed, order kept. */
  function RemoveChar(s: string, ch: char): (r: string)
    ensures forall x :: x in r <==> x in s && x != ch
    ensures |r| <= |s|
    ensures ch !in s ==> r == s
  {
    if s == [] then [] else (if s[0] == ch then [] else [s[0]]) + RemoveChar(s[1..], ch)
  }

  /** `remove_rights(*sides)`: each listed letter removed in turn. */
  function RemoveAll(s: string, sides: seq<char>): (r: string)
    ensures forall x :: x in r <==> x in s && x !in sides
    ensures (forall i :: 0 <= i < |sides| ==> sides[i] !in s) ==> r == s
    decreases |sides|
  {
    if sides == [] then s else RemoveAll(RemoveChar(s, sides[0]), sides[1..])
  }

  /** Removing a letter from a string that starts with `c`. */
  lemma RemoveCharCons(c: char, s: string, ch: char)
    ensures RemoveChar([c] + s, ch) == (if c == ch then [] else [c]) + RemoveChar(s, ch)
  {
    assert ([c] + s)[0] == c && ([c] + s)[1..] == s;
  }

  /** Removing a letter works on each part of a string separately, so what is
      left keeps its order. */
  lemma {:induction false} RemoveCharAppend(a: string, b: string, ch: char)
    ensures RemoveChar(a + b, ch) == RemoveChar(a, ch) + RemoveChar(b, ch)
    decreases |a|
  {
    if a == [] {
      assert a + b == b;
    } else {
      var c, rest := a[0], a[1..];
      SplitHead(a, b);
      RemoveCharCons(c, rest, ch);
      RemoveCharCons(c, rest + b, ch);
      RemoveCharAppend(rest, b, ch);
      AppendAssoc(if c == ch then [] else [c], RemoveChar(rest, ch), RemoveChar(b, ch));
    }
  }

  lemma SplitHead(a: string, b: string)
    requires a != []
    ensures a == [a[0]] + a[1..] && a + b == [a[0]] + (a[1..] + b)
  {
  }

  lemma AppendAssoc(x: string, y: string, z: string)
    ensures x + (y + z) == (x + y) + z
  {
  }

  lemma {:induction false} RemoveAllAppend(a: string, b: string, sides: seq<char>)
    ensures RemoveAll(a + b, sides) == RemoveAll(a, sides) + RemoveAll(b, sides)
    decreases |sides|
  {
    if sides != [] {
      RemoveCharAppend(a, b, sides[0]);
      RemoveAllAppend(RemoveChar(a, sides[0]), RemoveChar(b, sides[0]), sides[1..]);
    }
  }

  /** The moves `update` inspects: a king move, or a rook leaving column 0 or 7. */
  predicate RevokingMove(m: Move)
  {
    m.pieceMoved.Some? &&
    (m.pieceMoved.value.kind == King || (m.pieceMoved.value.kind == Rook && (m.startCol == 0 || m.startCol == 7)))
  }

  /** `update`: a king move drops both of its colour's letters; a rook leaving
      column 7 or column 0 drops only the king-side or queen-side letter; every
      other move leaves the string as it was. */
  function UpdatedRights(rights: string, m: Move): (r: string)
    ensures IsKingOf(m.pieceMoved, White) ==> forall x :: x in r <==> x in rights && x != 'K' && x != 'Q'
    ensures IsKingOf(m.pieceMoved, Black) ==> forall x :: x in r <==> x in rights && x != 'k' && x != 'q'
    ensures m.pieceMoved == Some(Piece(White, Rook)) && m.startCol == 7 ==> forall x :: x in r <==> x in rights && x != 'K'
    ensures m.pieceMoved == Some(Piece(White, Rook)) && m.startCol == 0 ==> forall x :: x in r <==> x in rights && x != 'Q'
    ensures m.pieceMoved == Some(Piece(Black, Rook)) && m.startCol == 7 ==> forall x :: x in r <==> x in rights && x != 'k'
    ensures m.pieceMoved == Some(Piece(Black, Rook)) && m.startCol == 0 ==> forall x :: x in r <==> x in rights && x != 'q'
    ensures !RevokingMove(m) ==> r == rights
    ensures (forall x :: x in r <==> x in rights) ==> r == rights
  {
    if m.pieceMoved == Some(Piece(White, King)) then RemoveAll(rights, "KQ")
    else if m.pieceMoved == Some(Piece(Black, King)) then RemoveAll(rights, "kq")
    else if m.pieceMoved == Some(Piece(White, Rook)) then
      (if m.startCol == 7 then RemoveAll(rights, "K") else if m.startCol == 0 then RemoveAll(rights, "Q") else rights)
    else if m.pieceMoved == Some(Piece(Black, Rook)) then
      (if m.startCol == 7 then RemoveAll(rights, "k") else if m.startCol == 0 then RemoveAll(rights, "q") else rights)
    else rights
  }

  /** `update` works on each part of the rights string separately: the
      letters it keeps stay in the order they had. */
  lemma UpdatedRightsAppend(a: string, b: string, m: Move)
    ensures UpdatedRights(a + b, m) == UpdatedRights(a, m) + UpdatedRights(b, m)
  {
    if m.pieceMoved == Some(Piece(White, King)) { RemoveAllAppend(a, b, "KQ"); }
    else if m.pieceMoved == Some(Piece(Black, King)) { RemoveAllAppend(a, b, "kq"); }
    else if m.pieceMoved == Some(Piece(White, Rook)) {
      RemoveAllAppend(a, b, "K");
      RemoveAllAppend(a, b, "Q");
    } else if m.pieceMoved == Some(Piece(Black, Rook)) {
      RemoveAllAppend(a, b, "k");
      RemoveAllAppend(a, b, "q");
    }
  }

  /** `undo_castling_rights`: pop the log and, if an entry is left, take it as
      the current string. */
  function UndoneRights(rights: string, log: seq<string>): (string, seq<string>)
  {
    if |log| != 0 then
      var log' := log[..|log| - 1];
      (if |log'| != 0 then log'[|log'| - 1] else rights, log')
    else (rights, log)
  }

  /** An undo right after an update restores the string and the log as they were,
      provided the log's last entry is the current string. */
  lemma UndoAfterUpdate(rights: string, log: seq<string>, m: Move)
    requires |log| > 0 && log[|log| - 1] == rights
    ensures var r := UpdatedRights(rights, m);
            UndoneRights(r, log + [r]) == (rights, log)
  {
    var r := UpdatedRights(rights, m);
    assert (log + [r])[..|log|] == log;
  }

  /** `__str__`: the string, or "-" when no right is left. */
  function RightsText(rights: string): (t: string)
    ensures t != []
    ensures rights != [] ==> t == rights
    ensures rights == [] ==> t == "-"
  {
    if rights == [] then "-" else rights
  }

  class CastlingRights {
    /** `castling_rights_string` */
    var rights: string
    /** `castling_rights_log` */
    var log: seq<string>

    constructor (s: string)
      ensures rights == s && log == [s]
    {
      rights := s;
      log := [s];
    }

    /** `has_rights`: the letter occurs in the string. */
    function HasRights(side: char): (b: bool)
      reads this
      ensures b <==> exists i :: 0 <= i < |rights| && rights[i] == side
    {
      side in rights
    }

    method RemoveRights(sides: seq<char>)
      modifies this
      ensures rights == RemoveAll(old(rights), sides) && log == old(log)
    {
      var i := 0;
      while i < |sides|
        invariant 0 <= i <= |sides| && log == old(log)
        invariant RemoveAll(rights, sides[i..]) == RemoveAll(old(rights), sides)
      {
        assert sides[i..][1..] == sides[i + 1..];
        rights := RemoveChar(rights, sides[i]);
        i := i + 1;
      }
    }

    /** `update`: revoke per the move and append exactly one log entry. */
    method Update(m: Move)
      modifies this
      ensures rights == UpdatedRights(old(rights), m) && log == old(log) + [rights]
    {
      if m.pieceMoved == Some(Piece(White, King)) {
        RemoveRights("KQ");
      } else if m.pieceMoved == Some(Piece(Black, King)) {
        RemoveRights("kq");
      } else if m.pieceMoved == Some(Piece(White, Rook)) {
        if m.startCol == 7 {
          RemoveRights("K");
        } else if m.startCol == 0 {
          RemoveRights("Q");
        }
      } else if m.pieceMoved == Some(Piece(Black, Rook)) {
        if m.startCol == 7 {
          RemoveRights("k");
        } else if m.startCol == 0 {
          RemoveRights("q");
        }
      }
      log := log + [rights];
    }

    method UndoRights()
      modifies this
      ensures (rights, log) == UndoneRights(old(rights), old(log))
    {
      if |log| != 0 {
        log := log[..|log| - 1];
        if |log| != 0 {
          rights := log[|log| - 1];
        }
      }
    }

    function ToString(): (t: string)
      reads this
      ensures t == RightsText(rights)
    {
      RightsText(rights)
    }
  }
}
