/*
 * The long format of listare/src/longformat.rs: for each entry, the file-type
 * character followed by the nine permission characters in groups of three,
 * each group followed by a space. The file-type character and the permission
 * characters are those of module LongFormat.
 */
module ListareLongFormat {
  import Arith
  import L = LongFormat

  /** `t` with a space after every third character. */
  function Spaced(t: string): string
  {
    if t == [] then []
    else Spaced(t[..|t| - 1]) + [t[|t| - 1]] + if |t| % 3 == 0 then " " else ""
  }

  /** What `write_perms` writes for a mode. */
  function PermsBlock(mode: nat): string
  {
    Spaced(L.ModeString(mode))
  }

  /** `write_perms`: walks the permission table, writes the letter or '-', and
      a space after every third entry. */
  method WritePerms(mode: nat) returns (out: string)
    ensures out == PermsBlock(mode)
  {
    L.PermsTable();
    ghost var ms := L.ModeString(mode);
    out := [];
    var i := 0;
    while i < |L.PERMS|
      invariant i <= |L.PERMS| && out == Spaced(ms[..i])
    {
      var perm := L.PERMS[i];
      if (mode / perm.0) % 2 != 0 {
        out := out + [perm.1];
      } else {
        out := out + ['-'];
      }
      if (i + 1) % 3 == 0 {
        out := out + " ";
      }
      assert ms[..i + 1][..i] == ms[..i];
      i := i + 1;
    }
    assert ms[..i] == ms;
  }

  /** Three more characters add one group and its space. */
  lemma SpacedGroup(t: string, g: nat)
    requires 3 * g + 3 <= |t|
    ensures Spaced(t[..3 * g + 3]) == Spaced(t[..3 * g]) + t[3 * g..3 * g + 3] + " "
  {
    var a, b, c := t[..3 * g + 1], t[..3 * g + 2], t[..3 * g + 3];
    Arith.DivUnique(3 * g + 1, 3, g, 1);
    Arith.DivUnique(3 * g + 2, 3, g, 2);
    Arith.DivUnique(3 * g + 3, 3, g + 1, 0);
    assert a[..|a| - 1] == t[..3 * g];
    assert Spaced(a) == Spaced(t[..3 * g]) + [t[3 * g]];
    assert b[..|b| - 1] == a;
    assert Spaced(b) == Spaced(a) + [t[3 * g + 1]];
    assert c[..|c| - 1] == b;
    assert Spaced(c) == Spaced(b) + [t[3 * g + 2]] + " ";
    assert t[3 * g..3 * g + 3] == [t[3 * g], t[3 * g + 1], t[3 * g + 2]];
  }

  /** The block is the owner, group and other triples, each followed by a
      space: twelve characters. */
  lemma PermsBlockGroups(mode: nat)
    ensures var ms := L.ModeString(mode);
            && PermsBlock(mode) == ms[0..3] + " " + ms[3..6] + " " + ms[6..9] + " "
            && |PermsBlock(mode)| == 12
  {
    var ms := L.ModeString(mode);
    SpacedGroup(ms, 0);
    SpacedGroup(ms, 1);
    SpacedGroup(ms, 2);
    assert ms[..0] == [];
    assert ms[..9] == ms;
  }

  /** `s` without its spaces. */
  function RemoveSpaces(s: string): string
  {
    if s == [] then []
    else RemoveSpaces(s[..|s| - 1]) + if s[|s| - 1] == ' ' then [] else [s[|s| - 1]]
  }

  lemma {:induction false} RemoveSpacesAppend(a: string, b: string)
    ensures RemoveSpaces(a + b) == RemoveSpaces(a) + RemoveSpaces(b)
  {
    if b != [] {
      var b' := b[..|b| - 1];
      assert (a + b)[..|a + b| - 1] == a + b';
      RemoveSpacesAppend(a, b');
    } else {
      assert a + b == a;
    }
  }

  lemma RemoveSpacesShort(c: char)
    ensures RemoveSpaces([c]) == if c == ' ' then [] else [c]
  {
    assert [c][..0] == [];
  }

  predicate NoSpaces(t: string)
  {
    forall i :: 0 <= i < |t| ==> t[i] != ' '
  }

  /** Removing the spaces undoes `Spaced` on text without spaces. */
  lemma {:induction false} SpacedRoundTrip(t: string)
    requires NoSpaces(t)
    ensures RemoveSpaces(Spaced(t)) == t
  {
    if t != [] {
      var t' := t[..|t| - 1];
      var c := t[|t| - 1];
      assert NoSpaces(t') by {
        forall i | 0 <= i < |t'| ensures t'[i] != ' ' {
          assert t'[i] == t[i];
        }
      }
      SpacedRoundTrip(t');
      var u := Spaced(t') + [c];
      RemoveSpacesAppend(Spaced(t'), [c]);
      RemoveSpacesShort(c);
      assert RemoveSpaces(u) == t by {
        assert t' + [c] == t;
      }
      if |t| % 3 == 0 {
        assert Spaced(t) == u + " ";
        RemoveSpacesAppend(u, " ");
        RemoveSpacesShort(' ');
      } else {
        assert Spaced(t) == u;
      }
    }
  }

  /** The block holds the mode string and nothing else but spaces. */
  lemma PermsBlockRoundTrip(mode: nat)
    ensures RemoveSpaces(PermsBlock(mode)) == L.ModeString(mode)
    ensures L.ParseMode(RemoveSpaces(PermsBlock(mode))) == mode % 512
  {
    SpacedRoundTrip(L.ModeString(mode));
    L.ModeStringRoundTrip(mode);
  }

  /** Only the nine permission bits affect the block. */
  lemma PermsBlockLowBitsOnly(mode: nat)
    ensures PermsBlock(mode) == PermsBlock(mode % 512)
  {
    L.ModeLowBitsOnly(mode);
  }

  /** `Display for EntryDisplayer::fmt`: the type character, then the block. */
  function EntryText(e: L.Entry): string
  {
    [L.FileTypeChar(e.fileType)] + PermsBlock(e.mode)
  }

  /** The text is thirteen characters; without its spaces it is the first ten
      characters of the later long line, whatever the widths. */
  lemma EntryTextMatchesLongLine(e: L.Entry, cfg: L.Config)
    ensures |EntryText(e)| == 13
    ensures RemoveSpaces(EntryText(e)) == L.EntryLine(e, cfg)[..10]
  {
    PermsBlockGroups(e.mode);
    PermsBlockRoundTrip(e.mode);
    L.LineStart(e, cfg);
    var c := [L.FileTypeChar(e.fileType)];
    RemoveSpacesAppend(c, PermsBlock(e.mode));
    RemoveSpacesShort(L.FileTypeChar(e.fileType));
    var line := L.EntryLine(e, cfg);
    assert line[..10] == [line[0]] + line[1..10];
  }

  /** `longformat_tabulate_entries`: one line per entry, in order. */
  method LongformatTabulateEntries(entries: seq<L.Entry>) returns (lines: seq<string>)
    ensures |lines| == |entries|
    ensures forall i :: 0 <= i < |entries| ==> lines[i] == EntryText(entries[i])
  {
    lines := [];
    var j := 0;
    while j < |entries|
      invariant j <= |entries| && |lines| == j
      invariant forall k :: 0 <= k < j ==> lines[k] == EntryText(entries[k])
    {
      var perms := WritePerms(entries[j].mode);
      lines := lines + [[L.FileTypeChar(entries[j].fileType)] + perms];
      j := j + 1;
    }
  }
}
