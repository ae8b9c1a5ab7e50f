/*
 * The `ls -l` style lines of src/longformat.rs: the file-type character, the
 * nine permission characters, the right-aligned link count and size, the
 * left-aligned owner and group, and the widths those fields are padded to,
 * taken over all the entries listed.
 *
 * The owner and group names, the formatted timestamp, the entry's name and its
 * link target are inputs: the source obtains them from the user database, the
 * clock and the file system.
 */
module LongFormat {
  import Arith
  import opened Wrappers

  // ---------------------------------------------------------------------------
  // File type

  /** The kinds of file the metadata can report. */
  datatype FileType = Directory | Symlink | CharDevice | BlockDevice | Fifo | Socket | RegularFile | Other

  /** `write_file_type`: the tests are made in this order, and a kind none of
      them recognises shows as '?'. */
  function FileTypeChar(ft: FileType): char
  {
    if ft.Directory? then 'd'
    else if ft.Symlink? then 'l'
    else if ft.CharDevice? then 'c'
    else if ft.BlockDevice? then 'b'
    else if ft.Fifo? then 'p'
    else if ft.Socket? then 's'
    else if ft.RegularFile? then '-'
    else '?'
  }

  /** Reads a file-type character back. */
  function FileTypeOfChar(c: char): Option<FileType>
  {
    match c
    case 'd' => Some(Directory)
    case 'l' => Some(Symlink)
    case 'c' => Some(CharDevice)
    case 'b' => Some(BlockDevice)
    case 'p' => Some(Fifo)
    case 's' => Some(Socket)
    case '-' => Some(RegularFile)
    case '?' => Some(Other)
    case _ => None
  }

  /** Every kind has its own character: the character reads back as the kind,
      and every character that reads back names that kind. */
  lemma FileTypeCharRoundTrip(ft: FileType, c: char)
    ensures FileTypeOfChar(FileTypeChar(ft)) == Some(ft)
    ensures FileTypeOfChar(c) == Some(ft) <==> FileTypeChar(ft) == c
  {
  }

  // ---------------------------------------------------------------------------
  // Permission bits

  function Pow2(b: nat): (p: nat)
    ensures p >= 1
  {
    if b == 0 then 1 else 2 * Pow2(b - 1)
  }

  /** Bit `b` of `mode` is set: `mode & (1 << b) != 0`. */
  predicate Bit(mode: nat, b: nat)
  {
    (mode / Pow2(b)) % 2 == 1
  }

  /** The permission letters, repeated for owner, group and others. */
  const PERM_LETTERS: string := "rwx"

  /** The table `write_file_mode` walks: the bits 0o400 .. 0o001 with their
      letters. */
  const PERMS: seq<(nat, char)> :=
    [(256, 'r'), (128, 'w'), (64, 'x'), (32, 'r'), (16, 'w'), (8, 'x'), (4, 'r'), (2, 'w'), (1, 'x')]

  /** Permission position `k` (0 = owner read .. 8 = others execute) shows its
      letter exactly when bit `8 - k` of the mode is set. */
  function ModeString(mode: nat): (s: string)
    ensures |s| == 9
    ensures forall k :: 0 <= k < 9 ==> (s[k] != '-' <==> Bit(mode, 8 - k))
    ensures forall k :: 0 <= k < 9 ==> s[k] == '-' || s[k] == PERM_LETTERS[k % 3]
  {
    seq(9, k requires 0 <= k < 9 => if Bit(mode, 8 - k) then PERM_LETTERS[k % 3] else '-')
  }

  /** The table lists, position by position, the bit `8 - k` and the letter
      that `ModeString` shows for it. */
  lemma PermsTable()
    ensures |PERMS| == 9
    ensures forall k :: 0 <= k < 9 ==> PERMS[k].0 == Pow2(8 - k) && PERMS[k].1 == PERM_LETTERS[k % 3]
  {
    assert Pow2(1) == 2 && Pow2(2) == 4 && Pow2(3) == 8 && Pow2(4) == 16;
    assert Pow2(5) == 32 && Pow2(6) == 64 && Pow2(7) == 128 && Pow2(8) == 256;
  }

  /** `write_file_mode`: one character per table entry, the letter when the
      entry's bit is set in the mode and '-' otherwise. */
  method WriteFileMode(mode: nat) returns (s: string)
    ensures s == ModeString(mode)
  {
    PermsTable();
    s := [];
    var i := 0;
    while i < |PERMS|
      invariant i <= |PERMS| && s == ModeString(mode)[..i]
    {
      var perm := PERMS[i];
      if (mode / perm.0) % 2 != 0 {
        s := s + [perm.1];
      } else {
        s := s + ['-'];
      }
      i := i + 1;
    }
  }

  lemma {:induction false} Pow2Add(a: nat, b: nat)
    ensures Pow2(a + b) == Pow2(a) * Pow2(b)
  {
    if a > 0 {
      Pow2Add(a - 1, b);
      assert Pow2(a + b) == 2 * Pow2(a - 1 + b);
    }
  }

  /** Dividing by `2p` is dividing by `p`, then by 2. */
  lemma DivDiv(m: nat, p: nat)
    requires p > 0
    ensures m / (p * 2) == (m / p) / 2
  {
    var y, r := m / p, m % p;
    var z, b := y / 2, y % 2;
    assert m == y * p + r && r < p;
    assert y == z * 2 + b && b <= 1;
    MulSplit(z, b, p);
    assert b * p <= p by {
      if b == 1 {
      } else {
        assert b * p == 0;
      }
    }
    Arith.DivUnique(m, p * 2, z, b * p + r);
  }

  lemma MulSplit(z: nat, b: nat, p: nat)
    ensures (z * 2 + b) * p == z * (p * 2) + b * p
  {
  }

  /** Dividing `q * (p * e) + r` by `p` divides each part. */
  lemma DivOfMultiple(q: nat, r: nat, p: nat, e: nat)
    requires p > 0
    ensures (q * (p * e) + r) / p == q * e + r / p
  {
    assert r == (r / p) * p + r % p;
    assert q * (p * e) + r == (q * e + r / p) * p + r % p by {
      assert q * (p * e) == (q * e) * p;
      assert (q * e + r / p) * p == (q * e) * p + (r / p) * p;
    }
    Arith.DivUnique(q * (p * e) + r, p, q * e + r / p, r % p);
  }

  /** Adding an even number keeps the parity. */
  lemma ParityShift(q: nat, h: nat, x: nat)
    ensures (q * (2 * h) + x) % 2 == x % 2
  {
    assert q * (2 * h) + x == (q * h + x / 2) * 2 + x % 2 by {
      assert q * (2 * h) == (q * h) * 2;
    }
    Arith.DivUnique(q * (2 * h) + x, 2, q * h + x / 2, x % 2);
  }

  /** Bits 0 to 8 of the mode are those of `mode % 512`. */
  lemma LowBit(mode: nat, b: nat)
    requires b < 9
    ensures Bit(mode, b) == Bit(mode % 512, b)
  {
    var p, h := Pow2(b), Pow2(8 - b);
    var e := 2 * h;
    Pow2Add(b, 9 - b);
    assert Pow2(9 - b) == e;
    assert p * e == 512 by {
      assert Pow2(9) == 512;
    }
    var q, r := mode / 512, mode % 512;
    assert mode == q * 512 + r;
    assert mode == q * (p * e) + r;
    DivOfMultiple(q, r, p, e);
    assert mode / p == q * e + r / p;
    ParityShift(q, h, r / p);
    assert (mode / p) % 2 == (r / p) % 2;
  }

  /** Only the nine permission bits matter: bits above 0o777 (set-user-ID,
      sticky, file type) never change the mode string. */
  lemma ModeLowBitsOnly(mode: nat)
    ensures ModeString(mode) == ModeString(mode % 512)
  {
    forall b | 0 <= b < 9 ensures Bit(mode, b) == Bit(mode % 512, b) {
      LowBit(mode, b);
    }
    assert forall k :: 0 <= k < 9 ==> ModeString(mode)[k] == ModeString(mode % 512)[k];
  }

  /** Reads a mode string back as a number: a letter is a set bit, '-' a clear one. */
  function ParseMode(s: string): nat
  {
    if s == [] then 0 else ParseMode(s[..|s| - 1]) * 2 + if s[|s| - 1] == '-' then 0 else 1
  }

  lemma {:induction false} ParseModePrefix(mode: nat, k: nat)
    requires k <= 9
    ensures ParseMode(ModeString(mode)[..k]) == (mode % 512) / Pow2(9 - k)
  {
    var m := mode % 512;
    if k == 0 {
      assert Pow2(9) == 512;
      Arith.DivUnique(m, 512, 0, m);
    } else {
      var s := ModeString(mode);
      ParseModePrefix(mode, k - 1);
      assert s[..k][..k - 1] == s[..k - 1];
      LowBit(mode, 9 - k);
      var y := m / Pow2(9 - k);
      assert Pow2(10 - k) == Pow2(9 - k) * 2;
      DivDiv(m, Pow2(9 - k));
      assert y == (y / 2) * 2 + y % 2;
    }
  }

  /** The mode string records exactly the nine permission bits: reading it
      back gives `mode % 512`. */
  lemma ModeStringRoundTrip(mode: nat)
    ensures ParseMode(ModeString(mode)) == mode % 512
  {
    ParseModePrefix(mode, 9);
    assert ModeString(mode)[..9] == ModeString(mode);
  }

  /** Two modes print the same permissions exactly when their nine permission
      bits agree. */
  lemma ModeStringsEqual(a: nat, b: nat)
    ensures ModeString(a) == ModeString(b) <==> a % 512 == b % 512
  {
    ModeStringRoundTrip(a);
    ModeStringRoundTrip(b);
    ModeLowBitsOnly(a);
    ModeLowBitsOnly(b);
  }

  // ---------------------------------------------------------------------------
  // Numbers and padding

  const DIGITS: string := "0123456789"

  /** The decimal representation `to_string` gives a number. */
  function Decimal(n: nat): string
  {
    if n < 10 then [DIGITS[n]] else Decimal(n / 10) + [DIGITS[n % 10]]
  }

  predicate IsDigits(s: string)
  {
    forall i :: 0 <= i < |s| ==> s[i] in DIGITS
  }

  function DigitValue(c: char): nat
  {
    if c == '0' then 0 else if c == '1' then 1 else if c == '2' then 2 else if c == '3' then 3
    else if c == '4' then 4 else if c == '5' then 5 else if c == '6' then 6 else if c == '7' then 7
    else if c == '8' then 8 else 9
  }

  /** Reads a string of decimal digits as a number. */
  function DecimalValue(s: string): nat
  {
    if s == [] then 0 else DecimalValue(s[..|s| - 1]) * 10 + DigitValue(s[|s| - 1])
  }

  /** The representation is a non-empty string of digits without a leading
      zero, and it reads back as the number. */
  lemma {:induction false} DecimalRoundTrip(n: nat)
    ensures var s := Decimal(n);
            && |s| >= 1 && IsDigits(s) && (|s| > 1 ==> s[0] != '0')
            && DecimalValue(s) == n
  {
    if n >= 10 {
      DecimalRoundTrip(n / 10);
      var s := Decimal(n);
      assert s[..|s| - 1] == Decimal(n / 10);
    }
  }

  /** A larger number never has fewer digits. */
  lemma {:induction false} DecimalLengthMonotone(a: nat, b: nat)
    requires a <= b
    ensures |Decimal(a)| <= |Decimal(b)|
  {
    if a >= 10 {
      DecimalLengthMonotone(a / 10, b / 10);
    } else {
      DecimalRoundTrip(b);
    }
  }

  function Spaces(k: nat): string
  {
    seq(k, _ => ' ')
  }

  /** `{:width$}` on a number: spaces on the left up to `w` characters. */
  function PadLeft(s: string, w: nat): (r: string)
    ensures |r| == if |s| < w then w else |s|
    ensures r[|r| - |s|..] == s
    ensures forall i :: 0 <= i < |r| - |s| ==> r[i] == ' '
  {
    if |s| < w then Spaces(w - |s|) + s else s
  }

  /** `{:width$}` on a string: spaces on the right up to `w` characters. */
  function PadRight(s: string, w: nat): (r: string)
    ensures |r| == if |s| < w then w else |s|
    ensures r[..|s|] == s
    ensures forall i :: |s| <= i < |r| ==> r[i] == ' '
  {
    if |s| < w then s + Spaces(w - |s|) else s
  }

  /** Drops the spaces a right alignment put in front. */
  function TrimLeft(s: string): string
  {
    if s != [] && s[0] == ' ' then TrimLeft(s[1..]) else s
  }

  lemma {:induction false} TrimLeftPadding(k: nat, s: string)
    requires s != [] && s[0] != ' '
    ensures TrimLeft(Spaces(k) + s) == s
  {
    if k > 0 {
      assert (Spaces(k) + s)[1..] == Spaces(k - 1) + s;
      TrimLeftPadding(k - 1, s);
    } else {
      assert Spaces(k) + s == s;
    }
  }

  /** A right-aligned number reads back as the number. */
  lemma PaddedNumberReadsBack(n: nat, w: nat)
    ensures DecimalValue(TrimLeft(PadLeft(Decimal(n), w))) == n
  {
    DecimalRoundTrip(n);
    var s := Decimal(n);
    assert s[0] in DIGITS;
    if |s| < w {
      TrimLeftPadding(w - |s|, s);
    } else {
      TrimLeftPadding(0, s);
      assert Spaces(0) + s == s;
    }
  }

  // ---------------------------------------------------------------------------
  // Entries and lines

  /** What a long line shows of one entry. `user` and `group` are the names
      the user database gives (empty when it knows none), `modified` is the
      formatted modification time and `linkTarget` the path a symbolic link
      points to. */
  datatype Entry = Entry(
    fileType: FileType,
    mode: nat,
    nlink: nat,
    len: nat,
    user: string,
    group: string,
    modified: string,
    name: string,
    linkTarget: string)

  /** The widths the variable-length fields are padded to. */
  datatype Config = Config(sizeWidth: nat, userWidth: nat, groupWidth: nat, nlinksWidth: nat)

  /** `write_size`: a directory shows size 0, any other entry its length. */
  function DisplayedSize(e: Entry): nat
  {
    if e.fileType.Directory? then 0 else e.len
  }

  /** `write_name`: a symbolic link shows `name -> target`. The name always
      leads, and only a symbolic link shows more than its name. */
  function NameText(e: Entry): (t: string)
    ensures |t| >= |e.name| && t[..|e.name|] == e.name
    ensures |t| > |e.name| <==> e.fileType.Symlink?
  {
    if e.fileType.Symlink? then e.name + " -> " + e.linkTarget else e.name
  }

  function NlinkField(e: Entry, cfg: Config): string
  {
    PadLeft(Decimal(e.nlink), cfg.nlinksWidth)
  }

  function UserField(e: Entry, cfg: Config): string
  {
    PadRight(e.user, cfg.userWidth)
  }

  function GroupField(e: Entry, cfg: Config): string
  {
    PadRight(e.group, cfg.groupWidth)
  }

  function SizeField(e: Entry, cfg: Config): string
  {
    PadLeft(Decimal(DisplayedSize(e)), cfg.sizeWidth)
  }

  /** The fields of a long line, in the order `fmt` writes them: type and
      mode, link count, owner, group, size, timestamp, name. */
  function Fields(e: Entry, cfg: Config): (fs: seq<string>)
    ensures |fs| == 7
  {
    [[FileTypeChar(e.fileType)] + ModeString(e.mode), NlinkField(e, cfg), UserField(e, cfg),
     GroupField(e, cfg), SizeField(e, cfg), e.modified, NameText(e)]
  }

  /** The fields with one space between each two. */
  function JoinSpaced(fields: seq<string>): string
  {
    if fields == [] then []
    else if |fields| == 1 then fields[0]
    else fields[0] + " " + JoinSpaced(fields[1..])
  }

  /** `Display for EntryDisplayer::fmt`. */
  function EntryLine(e: Entry, cfg: Config): string
  {
    JoinSpaced(Fields(e, cfg))
  }

  /** One entry's turn of the width scan: every width becomes the larger of
      itself and the entry's field. The size width measures the length even
      of a directory, whose size shows as 0. */
  function Widen(cfg: Config, e: Entry): Config
  {
    Config(
      if cfg.sizeWidth < |Decimal(e.len)| then |Decimal(e.len)| else cfg.sizeWidth,
      if cfg.userWidth < |e.user| then |e.user| else cfg.userWidth,
      if cfg.groupWidth < |e.group| then |e.group| else cfg.groupWidth,
      if cfg.nlinksWidth < |Decimal(e.nlink)| then |Decimal(e.nlink)| else cfg.nlinksWidth)
  }

  /** The widths after scanning `entries`, starting from 1 each. */
  function Widths(entries: seq<Entry>): Config
  {
    if entries == [] then Config(1, 1, 1, 1)
    else Widen(Widths(entries[..|entries| - 1]), entries[|entries| - 1])
  }

  /** Each width is at least 1 and at least the corresponding field of every
      entry scanned. */
  lemma {:induction false} WidthsCover(entries: seq<Entry>)
    ensures var cfg := Widths(entries);
            && cfg.sizeWidth >= 1 && cfg.userWidth >= 1 && cfg.groupWidth >= 1 && cfg.nlinksWidth >= 1
            && forall i :: 0 <= i < |entries| ==>
                 && |Decimal(entries[i].len)| <= cfg.sizeWidth
                 && |entries[i].user| <= cfg.userWidth
                 && |entries[i].group| <= cfg.groupWidth
                 && |Decimal(entries[i].nlink)| <= cfg.nlinksWidth
  {
    if entries != [] {
      var prefix := entries[..|entries| - 1];
      WidthsCover(prefix);
      assert forall i :: 0 <= i < |prefix| ==> entries[i] == prefix[i];
    }
  }

  /** Each width is the initial 1 or the field of some entry: the widths are
      no larger than they must be. */
  lemma {:induction false} WidthsAttained(entries: seq<Entry>)
    ensures var cfg := Widths(entries);
            && (cfg.sizeWidth == 1 || exists i :: 0 <= i < |entries| && cfg.sizeWidth == |Decimal(entries[i].len)|)
            && (cfg.userWidth == 1 || exists i :: 0 <= i < |entries| && cfg.userWidth == |entries[i].user|)
            && (cfg.groupWidth == 1 || exists i :: 0 <= i < |entries| && cfg.groupWidth == |entries[i].group|)
            && (cfg.nlinksWidth == 1 || exists i :: 0 <= i < |entries| && cfg.nlinksWidth == |Decimal(entries[i].nlink)|)
  {
    if entries != [] {
      var prefix := entries[..|entries| - 1];
      WidthsAttained(prefix);
      assert forall i :: 0 <= i < |prefix| ==> entries[i] == prefix[i];
    }
  }

  /** No width shrinks as more entries are scanned. */
  lemma {:induction false} WidthsGrow(entries: seq<Entry>, k: nat)
    requires k <= |entries|
    ensures var a, b := Widths(entries[..k]), Widths(entries);
            a.sizeWidth <= b.sizeWidth && a.userWidth <= b.userWidth &&
            a.groupWidth <= b.groupWidth && a.nlinksWidth <= b.nlinksWidth
  {
    if k < |entries| {
      var prefix := entries[..|entries| - 1];
      assert entries[..k] == prefix[..k];
      WidthsGrow(prefix, k);
    } else {
      assert entries[..k] == entries;
    }
  }

  lemma WidthsStep(entries: seq<Entry>, i: nat)
    requires i < |entries|
    ensures Widths(entries[..i + 1]) == Widen(Widths(entries[..i]), entries[i])
  {
    assert entries[..i + 1][..i] == entries[..i];
  }

  /** `longformat_tabulate_entries`: one pass widens the four widths, a second
      formats one line per entry with them. */
  method LongformatTabulateEntries(entries: seq<Entry>) returns (lines: seq<string>)
    ensures |lines| == |entries|
    ensures forall i :: 0 <= i < |entries| ==> lines[i] == EntryLine(entries[i], Widths(entries))
  {
    var cfg := ScanWidths(entries);
    lines := PrintLines(entries, cfg);
  }

  /** The first loop: every width starts at 1 and takes the maximum with the
      entry's field. */
  method ScanWidths(entries: seq<Entry>) returns (cfg: Config)
    ensures cfg == Widths(entries)
  {
    cfg := Config(1, 1, 1, 1);
    var i := 0;
    while i < |entries|
      invariant i <= |entries| && cfg == Widths(entries[..i])
    {
      var entry := entries[i];
      cfg := cfg.(sizeWidth := if cfg.sizeWidth < |Decimal(entry.len)| then |Decimal(entry.len)| else cfg.sizeWidth);
      cfg := cfg.(userWidth := if cfg.userWidth < |entry.user| then |entry.user| else cfg.userWidth);
      cfg := cfg.(groupWidth := if cfg.groupWidth < |entry.group| then |entry.group| else cfg.groupWidth);
      cfg := cfg.(nlinksWidth := if cfg.nlinksWidth < |Decimal(entry.nlink)| then |Decimal(entry.nlink)| else cfg.nlinksWidth);
      WidthsStep(entries, i);
      i := i + 1;
    }
    assert entries[..i] == entries;
  }

  /** The second loop: one line per entry, in order. */
  method PrintLines(entries: seq<Entry>, cfg: Config) returns (lines: seq<string>)
    ensures |lines| == |entries|
    ensures forall i :: 0 <= i < |entries| ==> lines[i] == EntryLine(entries[i], cfg)
  {
    lines := [];
    var j := 0;
    while j < |entries|
      invariant j <= |entries| && |lines| == j
      invariant forall k :: 0 <= k < j ==> lines[k] == EntryLine(entries[k], cfg)
    {
      lines := lines + [EntryLine(entries[j], cfg)];
      j := j + 1;
    }
  }

  // ---------------------------------------------------------------------------
  // Properties of the lines

  /** Where field `k` starts: the lengths of the fields before it, each
      followed by one space. */
  function Offset(fields: seq<string>, k: nat): nat
    requires k <= |fields|
  {
    if k == 0 then 0 else |fields[0]| + 1 + Offset(fields[1..], k - 1)
  }

  /** Field `k` and the ones after it make up the line from `Offset(fields, k)` on. */
  lemma {:induction false} JoinSpacedSuffix(fields: seq<string>, k: nat)
    requires k < |fields|
    ensures Offset(fields, k) <= |JoinSpaced(fields)|
    ensures JoinSpaced(fields)[Offset(fields, k)..] == JoinSpaced(fields[k..])
  {
    if k > 0 {
      var rest := fields[1..];
      JoinSpacedSuffix(rest, k - 1);
      assert rest[k - 1..] == fields[k..];
      var head := fields[0] + " ";
      assert JoinSpaced(fields) == head + JoinSpaced(rest);
      assert (head + JoinSpaced(rest))[|head| + Offset(rest, k - 1)..] == JoinSpaced(rest)[Offset(rest, k - 1)..];
    }
  }

  lemma SixthFieldOffset(fs: seq<string>)
    requires |fs| == 7
    ensures Offset(fs, 5) == |fs[0]| + |fs[1]| + |fs[2]| + |fs[3]| + |fs[4]| + 5
  {
    assert fs[4..][1..] == fs[5..];
    assert Offset(fs[4..], 1) == |fs[4]| + 1;
    assert fs[3..][1..] == fs[4..];
    assert Offset(fs[3..], 2) == |fs[3]| + 1 + Offset(fs[4..], 1);
    assert fs[2..][1..] == fs[3..];
    assert Offset(fs[2..], 3) == |fs[2]| + 1 + Offset(fs[3..], 2);
    assert fs[1..][1..] == fs[2..];
    assert Offset(fs[1..], 4) == |fs[1]| + 1 + Offset(fs[2..], 3);
  }

  /** The length of everything before the timestamp under `cfg`. */
  function HeaderWidth(cfg: Config): nat
  {
    10 + 1 + cfg.nlinksWidth + 1 + cfg.userWidth + 1 + cfg.groupWidth + 1 + cfg.sizeWidth + 1
  }

  /** With the widths of the whole listing, every padded field of every entry
      is exactly its width, so the fields line up in columns and every
      timestamp starts at the same offset. */
  lemma FieldsAlign(entries: seq<Entry>, i: nat)
    requires i < |entries|
    ensures var cfg := Widths(entries);
            var e := entries[i];
            && |NlinkField(e, cfg)| == cfg.nlinksWidth
            && |UserField(e, cfg)| == cfg.userWidth
            && |GroupField(e, cfg)| == cfg.groupWidth
            && |SizeField(e, cfg)| == cfg.sizeWidth
            && |EntryLine(e, cfg)| >= HeaderWidth(cfg)
            && EntryLine(e, cfg)[HeaderWidth(cfg)..] == e.modified + " " + NameText(e)
  {
    var cfg := Widths(entries);
    var e := entries[i];
    WidthsCover(entries);
    DecimalRoundTrip(0);
    DecimalLengthMonotone(DisplayedSize(e), e.len);
    var fs := Fields(e, cfg);
    SixthFieldOffset(fs);
    JoinSpacedSuffix(fs, 5);
    assert fs[5..] == [e.modified, NameText(e)];
    assert JoinSpaced(fs[5..][1..]) == NameText(e);
  }

  /** The size field reads back as 0 for a directory and as the length
      otherwise; the link-count field reads back as the link count. */
  lemma NumbersReadBack(e: Entry, cfg: Config)
    ensures DecimalValue(TrimLeft(SizeField(e, cfg))) == if e.fileType.Directory? then 0 else e.len
    ensures DecimalValue(TrimLeft(NlinkField(e, cfg))) == e.nlink
  {
    PaddedNumberReadsBack(DisplayedSize(e), cfg.sizeWidth);
    PaddedNumberReadsBack(e.nlink, cfg.nlinksWidth);
  }

  /** A line opens with the type character and the permissions, and the
      permissions are followed by a space. */
  lemma LineStart(e: Entry, cfg: Config)
    ensures var line := EntryLine(e, cfg);
            && |line| > 10
            && line[0] == FileTypeChar(e.fileType)
            && line[1..10] == ModeString(e.mode)
            && line[10] == ' '
  {
    var fs := Fields(e, cfg);
    var head := fs[0] + " ";
    assert EntryLine(e, cfg) == head + JoinSpaced(fs[1..]);
    assert head[1..10] == ModeString(e.mode);
  }
}
