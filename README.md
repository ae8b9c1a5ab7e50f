# listare layout and long-format model

listare is an `ls`-like directory lister written in Rust. This project models,
in Dafny, the two parts of it that compute rather than talk to the operating
system:

- **The column-layout engine.** This is `src/tabulate.rs` and its earlier
  variant `listare/src/tabulate.rs`.
  - Given the display widths of the names, a maximum line length and a fill
    order (down the columns or across the rows), it searches for the layout
    with the most columns that fits.
  - It builds one candidate configuration per column count. One pass over the
    items widens each candidate's columns in place. A candidate becomes
    invalid once a widening leaves its line no shorter than the maximum; a
    candidate never widened stays valid. The widest candidate still valid
    wins, and the one-column candidate wins if none is valid.
  - It then prints the items in that grid, each padded to its column's width.
- **The long listing.** This is `src/longformat.rs` and
  `listare/src/longformat.rs`.
  - It writes the file-type character and the nine `rwx` permission
    characters, as the POSIX `ls -l` format does.
  - It writes the right-aligned link count and size, the left-aligned owner
    and group, the timestamp and the name.
  - The padding widths are the maxima over all the entries listed.

Modules:

- `Tabulate` (`tabulate.dfy`) models `src/tabulate.rs`.
  - The candidate configurations are a local sequence that
    `GetColumnConfig` updates element by element. The method is proved equal
    to the specification function `Search`, which is a fold of one item's
    visit, `FitItem`, over the items.
  - The renderer's output is a stream of tokens. A `Cell(i, w)` stands for
    item `i` written with `{:width$}` and width `w`, and `Newline` stands for
    the end of a row.
- `ListareTabulate` (`listare_tabulate.dfy`) models the earlier engine.
  - Its search is proved to select exactly the configuration `Tabulate.Search`
    selects for column order.
  - Its listing is proved to be the later engine's text plus one final
    newline.
- `LongFormat` (`longformat.dfy`) models `src/longformat.rs`.
  - The file mode is a natural number, and `mode & bit != 0` for a
    single-bit mask is `(mode / bit) % 2 == 1`.
  - The file type is an enumeration.
- `ListareLongFormat` (`listare_longformat.dfy`) models the earlier long
  format: the type character, then the permissions in space-separated
  triples.
- `Wrappers` (`wrappers.dfy`) holds the `Option` type both models use.
- `Arith` (`arith.dfy`) holds the uniqueness of quotient and remainder, which
  both the grid arithmetic and the permission bits use.

## Model

| member | source | states |
|---|---|---|
| Tabulate.MaxColumns | src/tabulate.rs:26-27 | The candidate count is at most the number of items, and at least 1 when there are items. Above 1, that many minimum-width columns fit the line; below the number of items, one more would not fit. |
| Tabulate.InitColumnConfigs | src/tabulate.rs:20-38 | Returns exactly MaxColumns candidates. The k-th has k+1 columns, all at the minimum width, line length (k+1)·width and valid set. Each keeps the invariant that the line length is the sum of the widths. |
| Tabulate.RowCount | src/tabulate.rs:146-151 | The row count is the ceiling of n/c: rows·c ≥ n and (rows−1)·c < n. |
| Tabulate.ColumnIndex | src/tabulate.rs:88-94 | The column of item i is below the column count in both orientations: i mod c across rows, i / ceil(n/c) down columns. |
| Tabulate.RealLen | src/tabulate.rs:98-103 | The length an item needs in its column: its width plus the two-character separator, except in the last column. Its use is stated by ValidFitsItems and ColumnNeedsIsMax. |
| Tabulate.FitItem | src/tabulate.rs:84-111 | One item's visit to one candidate keeps the column count and the number of widths; FitItemEffect states the rest of its effect. |
| Tabulate.FitItemEffect | src/tabulate.rs:84-111 | One item's visit leaves an invalid candidate untouched, and also a candidate whose column already holds the item. Otherwise it changes only the item's column, which becomes exactly the item's RealLen: its width, plus the separator unless the column is the last. The line length grows by exactly the column's growth. A changed candidate is valid exactly when its line is shorter than the maximum. |
| Tabulate.ScanItems | src/tabulate.rs:81-113 | One candidate after the first `count` items have visited it, in order; it keeps its column count and as many widths as columns. |
| Tabulate.Candidates | src/tabulate.rs:77-113 | Every candidate, one per column count 1..MaxColumns, after the scan of the first `count` items. CandidatesAre and CandidateShape state its content. |
| Tabulate.LastValid | src/tabulate.rs:116 | `rposition`: the position found holds a valid candidate and no later candidate is valid. When none is found, no candidate is valid. |
| Tabulate.Search | src/tabulate.rs:67-120 | Fails with EmptyData exactly when there are no items. Otherwise the result has between 1 and MaxColumns columns and as many widths as columns. |
| Tabulate.GetColumnConfig | src/tabulate.rs:67-120 | The in-place nested loops compute exactly Search, and they fail exactly on empty data. |
| Tabulate.WidenAll | src/tabulate.rs:81-113 | One item's pass over the candidates, updating each in place, advances every candidate by exactly one step of the scan. |
| Tabulate.WidenCandidate | src/tabulate.rs:84-111 | The body of the inner loop, with its in-place field updates, is exactly one widening step FitItem, whose effects FitItemEffect states. |
| Tabulate.CandidatesAre | src/tabulate.rs:77-113 | A sequence holding MaxColumns candidates, each scanned over every item, is the candidate sequence the search chooses from. |
| Tabulate.ScanKeepsWellFormed | src/tabulate.rs:106-109 | Throughout the scan the line length equals the sum of the column widths, and no width drops below the minimum. |
| Tabulate.ScanWidthsGrow | src/tabulate.rs:106-109 | Column widths never decrease during the scan. |
| Tabulate.InvalidIsFrozen | src/tabulate.rs:84-86 | Once a candidate is invalid, later items never change it. |
| Tabulate.ValidFitsItems | src/tabulate.rs:98-109 | A candidate still valid after the scan has every item's column at least the item's width, plus 2 unless it is the last column. |
| Tabulate.ValidIsShort | src/tabulate.rs:106-111 | A valid candidate's line is shorter than the maximum, or the candidate was never widened. |
| Tabulate.CandidateShape | src/tabulate.rs:28-35 | After the scan, the k-th candidate has k+1 columns and keeps the width invariant. |
| Tabulate.SearchSelectsWidestValid | src/tabulate.rs:114-119 | The result is the candidate with its own column count. When it is valid, no valid candidate has more columns. When it is invalid, it is the one-column candidate and no candidate is valid. |
| Tabulate.SearchFits | src/tabulate.rs:98-119 | When the selected configuration is valid, every item fits its column, and the line is shorter than the maximum unless the configuration is still in its initial state. |
| Tabulate.ColumnNeeds | src/tabulate.rs:98-108 | The narrowest widths a candidate with c columns can have after the first items: one width per column, starting at the minimum and raised to each item's length in that column. |
| Tabulate.ColumnNeedsIsMax | src/tabulate.rs:98-108 | Each needed width is at least the minimum and at least every length of an item in its column. It equals the minimum or one of those lengths, so it is the per-column maximum. |
| Tabulate.ScanFollowsNeeds | src/tabulate.rs:81-113 | A candidate still valid after the scan has exactly the narrowest widths. A candidate whose narrowest widths sum below the maximum ends the scan valid. |
| Tabulate.SearchIsOptimal | src/tabulate.rs:67-120 | Whenever the narrowest widths for some column count k sum below the maximum, the selected configuration is valid, has at least k columns, and has exactly its own narrowest widths. |
| Tabulate.Fmt | src/tabulate.rs:137-145 | Displaying runs the search and then writes the grid. No items write nothing. |
| Tabulate.Layout | src/tabulate.rs:137-168 | What displaying writes: nothing for no items, otherwise the selected grid's rows with newlines between them. Fmt is proved to produce it. |
| Tabulate.WriteGrid | src/tabulate.rs:146-168 | The row and column loops write exactly the grid's rows, with a newline between rows and none after the last. |
| Tabulate.WriteRow | src/tabulate.rs:153-163 | The column loop writes exactly the row's cells of the grid: in column order, at the orientation's index, skipping indices past the end. |
| Tabulate.CellIndex | src/tabulate.rs:154-157 | The item written at (row, col): row·c + col across rows, row + col·rows down columns. CellColumn proves it agrees with the search's column. |
| Tabulate.RowCells | src/tabulate.rs:153-163 | The cells the column loop writes for one row from a given column on, skipping indices past the last item. RowCellsFrom states their positions and padding. |
| Tabulate.Grid | src/tabulate.rs:146-163 | The ceil(n/c) rows of cells the row loop writes. EachItemInOneCell and GridCellsMatchSearch state its content. |
| Tabulate.RowCellsFrom | src/tabulate.rs:153-163 | A row's cells sit in consecutive columns from the first, and each names an item padded to its column's width. Cells past the last item are skipped. |
| Tabulate.ItemCell | src/tabulate.rs:152-163 | Item i is written at its row, in the column ColumnIndex gives it, padded to that column's width. |
| Tabulate.ItemCellUnique | src/tabulate.rs:152-163 | No other cell of the grid writes item i. |
| Tabulate.EachItemInOneCell | src/tabulate.rs:152-163 | Every item is written exactly once, at the column the search assigned it. |
| Tabulate.CellColumn | src/tabulate.rs:154-157 | The render's index formula and the search's column formula agree: the item at (row, col) has search column col. |
| Tabulate.GridCell | src/tabulate.rs:159-161 | The cell at (r, j) names an existing item, padded to column j's width, and that item's search column is j. |
| Tabulate.GridCellsMatchSearch | src/tabulate.rs:152-163 | Every cell of the grid names an existing item and is padded to the width of its column, which is that item's search column. |
| Tabulate.GridHoldsOnlyCells | src/tabulate.rs:152-163 | Every token in the grid's rows is an item cell; newlines come only from joining the rows. |
| Tabulate.RowsArePopulated | src/tabulate.rs:146-163 | Every one of the ceil(n/c) rows writes at least one item. |
| Tabulate.ValidRowFits | src/tabulate.rs:159-161 | In a valid layout, a row's printed width is at most the configuration's line length. |
| Tabulate.GridRowFits | src/tabulate.rs:152-163 | For any configuration whose line length is the sum of its widths and whose columns hold their items, every row's printed width is at most the line length. |
| Tabulate.RowFits | src/tabulate.rs:159-161 | A row whose cells each name an item no wider than the cell, padded to its column's width, is no wider than the sum of the column widths. |
| Tabulate.CellFits | src/tabulate.rs:159-161 | A cell of the grid whose item fits its search column is padded to at least the item's width, so the padding sets its printed width. |
| Tabulate.ValidLayoutRowsFit | src/tabulate.rs:146-168 | In a valid layout, no printed row is wider than the line length. That length is below the maximum unless no item widened a column. |
| Tabulate.Lines | src/tabulate.rs:164-167 | The first k rows, each but the last followed by a newline, and the last too when a trailing newline is asked for (listare/src/tabulate.rs:102). |
| Tabulate.Join | src/tabulate.rs:164-167 | All rows joined by Lines. LinesNewlines and LinesTrailing state how many newlines it holds and where. |
| Tabulate.LinesNewlines | src/tabulate.rs:164-167 | For rows holding only cells, the only newlines in the output are those written between rows: joined without a trailing newline they hold one newline fewer than there are rows; with a trailing newline, as many as rows. |
| Tabulate.LinesTrailing | listare/src/tabulate.rs:102 | Ending the last row too adds exactly one newline at the end. |
| Tabulate.JoinEndsWithCell | src/tabulate.rs:164-167 | Rows of cells, the last not empty, joined without a trailing newline hold one newline fewer than rows and end with a cell. |
| Tabulate.LayoutEndsWithCell | src/tabulate.rs:146-168 | For at least one item the display is not empty, holds one newline fewer than its rows, and ends with a cell: no newline follows the last row. |
| ListareTabulate.InitColumnConfigs | listare/src/tabulate.rs:11-23 | Returns exactly max_cols candidates. The k-th has k+1 columns at the minimum width, line length (k+1)·width, and is valid. |
| ListareTabulate.VisitItem | listare/src/tabulate.rs:62-77 | One item's pass over the candidates, updating each in place, advances every candidate by one step of the shared scan. |
| ListareTabulate.VisitCandidate | listare/src/tabulate.rs:64-75 | The inner loop's body, with the inline column-major index and in-place updates, is exactly the shared widening step in column order. |
| ListareTabulate.GetColumnConfig | listare/src/tabulate.rs:50-84 | For non-empty input, the earlier search selects exactly the configuration the later search selects in column order. |
| ListareTabulate.Tabulate | listare/src/tabulate.rs:86-90 | Printing is the column-major grid of the selected configuration, every row ended by a newline. |
| ListareTabulate.PrintRows | listare/src/tabulate.rs:91-103 | The row and column loops write each row's cells at `idx = row + col·rows`, skip indices past the end, and end every row with a newline. |
| ListareTabulate.PrintRow | listare/src/tabulate.rs:93-101 | The column loop writes exactly the row's column-major cells, at `row + col·rows`, skipping indices past the end. |
| ListareTabulate.Listing | listare/src/tabulate.rs:86-104 | What `tabulate` prints: the column-major grid of the selected configuration, every row ended by a newline. Tabulate is proved to produce it. |
| ListareTabulate.ListingIsLayoutWithTrailingNewline | listare/src/tabulate.rs:86-104 | The earlier listing equals the later engine's column-order text plus one newline. |
| ListareTabulate.ListingEndsEveryRow | listare/src/tabulate.rs:92-103 | The listing holds one newline per row and ends with one. |
| LongFormat.FileTypeChar | src/longformat.rs:24-47 | The ordered tests of `write_file_type`, '?' when none holds. FileTypeCharRoundTrip proves each kind gets its own character. |
| LongFormat.FileTypeCharRoundTrip | src/longformat.rs:24-47 | Each file type has its own character among `d l c b p s - ?`: the character reads back as the type, and a character reads back as a type only when it is that type's character. The earlier `write_file_type` (listare/src/longformat.rs, lines 11-34) makes the same tests in the same order, so the same function models it. |
| LongFormat.ModeString | src/longformat.rs:49-72 | The nine permission characters: each is '-' or the letter r, w, x of its position (k mod 3), and it is the letter exactly when bit 8−k of the mode is set. |
| LongFormat.PermsTable | src/longformat.rs:51-61 | Table entry k is bit 0o400 >> k with the letter r, w or x, repeating. |
| LongFormat.WriteFileMode | src/longformat.rs:49-72 | The loop over the table writes the mode string: position k shows its letter exactly when bit 8−k is set, and '-' otherwise. |
| LongFormat.LowBit | src/longformat.rs:64 | Bits 0 to 8 of a mode are those of mode mod 512. |
| LongFormat.ModeLowBitsOnly | src/longformat.rs:63-69 | Bits above 0o777 never change the mode string. |
| LongFormat.ModeStringRoundTrip | src/longformat.rs:63-69 | Reading the mode string back gives mode mod 512, so the string records exactly the nine permission bits. |
| LongFormat.ModeStringsEqual | src/longformat.rs:49-72 | Two modes print the same permissions if and only if their nine low bits agree. |
| LongFormat.DecimalRoundTrip | src/longformat.rs:179 | `to_string` of a number is a non-empty string of digits without a leading zero that reads back as the number. |
| LongFormat.DecimalLengthMonotone | src/longformat.rs:179 | A larger number never has fewer digits. |
| LongFormat.PadLeft | src/longformat.rs:76 | A number written with `{:width$}` is right-aligned: spaces, then the number, max(width, length) characters in all. |
| LongFormat.PadRight | src/longformat.rs:84 | A string written with `{:width$}` is left-aligned: the string, then spaces, max(width, length) characters in all. |
| LongFormat.PaddedNumberReadsBack | src/longformat.rs:74-77 | A right-aligned number reads back as the number once its leading spaces are dropped. |
| LongFormat.DisplayedSize | src/longformat.rs:94-101 | The size shown: 0 for a directory, the length otherwise. NumbersReadBack states it as read from the line. |
| LongFormat.NameText | src/longformat.rs:134-145 | The name always leads the text, and the text is longer than the name exactly for a symbolic link. |
| LongFormat.NlinkField | src/longformat.rs:74-77 | `write_nlinks`: the link count right-aligned to the link-count width. PaddedNumberReadsBack and FieldsAlign state its width and content. |
| LongFormat.UserField | src/longformat.rs:79-85 | `write_user`: the owner name left-aligned to the owner width. FieldsAlign states its width. |
| LongFormat.GroupField | src/longformat.rs:87-92 | `write_group`: the group name left-aligned to the group width. FieldsAlign states its width. |
| LongFormat.SizeField | src/longformat.rs:94-101 | `write_size`: the displayed size right-aligned to the size width. NumbersReadBack and FieldsAlign state its content and width. |
| LongFormat.Fields | src/longformat.rs:149-165 | The seven fields of a long line, in the order `fmt` writes them. |
| LongFormat.EntryLine | src/longformat.rs:149-167 | The fields joined by single spaces. LineStart, FieldsAlign and NumbersReadBack state its layout. |
| LongFormat.NumbersReadBack | src/longformat.rs:94-101 | The size field reads back as 0 for a directory and as the length otherwise. The link-count field reads back as the link count. |
| LongFormat.LineStart | src/longformat.rs:150-153 | A line opens with the type character and the nine permission characters, followed by a space. |
| LongFormat.JoinSpacedSuffix | src/longformat.rs:150-164 | With one space between fields, field k and those after it start at the summed lengths of the earlier fields plus one space each. |
| LongFormat.FieldsAlign | src/longformat.rs:149-167 | With the listing's widths, every entry's link count, owner, group and size fields are exactly their widths, so the fields line up. Every timestamp starts at the same offset, followed by a space and the name. |
| LongFormat.Widen | src/longformat.rs:178-191 | One entry's turn of the width scan: each width becomes the larger of itself and the entry's field. |
| LongFormat.Widths | src/longformat.rs:170-192 | The widths after all entries, starting from 1 each. WidthsCover and WidthsAttained show each is exactly the largest field or 1. |
| LongFormat.WidthsCover | src/longformat.rs:170-192 | Each width is at least 1 and at least every entry's field: digits of the length, owner, group, digits of the link count. |
| LongFormat.WidthsAttained | src/longformat.rs:178-192 | Each width is 1 or equals some entry's field, so no width is larger than it must be. |
| LongFormat.WidthsGrow | src/longformat.rs:178-192 | No width shrinks as more entries are scanned. |
| LongFormat.ScanWidths | src/longformat.rs:170-192 | The first loop computes the widths: start at 1 and take the maximum with each entry's fields. |
| LongFormat.PrintLines | src/longformat.rs:194-203 | The second loop produces one line per entry, in order. |
| LongFormat.LongformatTabulateEntries | src/longformat.rs:169-204 | Each entry's line is formatted with the widths of the whole listing. |
| ListareLongFormat.PermsBlock | listare/src/longformat.rs:36-63 | The permission characters with a space after every third. PermsBlockGroups and PermsBlockRoundTrip state its shape and content. |
| ListareLongFormat.WritePerms | listare/src/longformat.rs:36-63 | The loop writes the permission characters with a space after every third. |
| ListareLongFormat.PermsBlockGroups | listare/src/longformat.rs:50-61 | The block is the owner, group and other triples, each followed by a space: 12 characters. |
| ListareLongFormat.SpacedRoundTrip | listare/src/longformat.rs:57-59 | Removing the inserted spaces restores text that had none. |
| ListareLongFormat.PermsBlockRoundTrip | listare/src/longformat.rs:50-61 | Without its spaces the block is the mode string, and it reads back as mode mod 512. |
| ListareLongFormat.PermsBlockLowBitsOnly | listare/src/longformat.rs:37-55 | Only the nine permission bits affect the block. |
| ListareLongFormat.EntryText | listare/src/longformat.rs:66-71 | The type character followed by the permission block. |
| ListareLongFormat.EntryTextMatchesLongLine | listare/src/longformat.rs:66-71 | An entry's text is 13 characters. Without its spaces, it equals the first ten characters of the later long line. |
| ListareLongFormat.LongformatTabulateEntries | listare/src/longformat.rs:73-82 | One text per entry, in order. |

## Left out

- **Directory reading and printing.** Reading directories, `symlink_metadata`, filtering hidden files, sorting with `strcoll`, command-line parsing and printing to the terminal are not modelled. The items arrive as a sequence of widths or entries, and printed text is a returned value.
- **Terminal width.** The line length comes from the terminal size, the `COLUMNS` variable or the default of 80. It is a parameter.
- **Colour.** `colored` ANSI styling is not modelled. A cell records its item and padding width rather than its bytes. The printed cell is max(item width, padding width) characters wide.
- **Timestamp.** `write_timestamp` depends on the clock and the local time zone. It is an input string (`Entry.modified`). Its panic on timestamps in the future is not modelled.
- **Owner and group names.** They come from the user database. They are input strings, empty when the database knows no name, as `unwrap_or_default` gives. The source measures a name's byte length but prints its lossy conversion; the model uses one string for both.
- **Symbolic-link targets.** `read_link` is filesystem access. The target is an input string (`Entry.linkTarget`). The formatting error raised when the link cannot be read is not modelled.
- **Integer widths.** `usize`, `u32` and `u64` are unbounded naturals. No sum or width in these functions approaches the bounds for real listings.
- **Item widths.** `characters_long` counts characters; the earlier engine counts bytes. Both are given as a sequence of widths.
- ListareTabulate.GetColumnConfig: requires at least one item. With no items there is no candidate, and `configs.remove(0)` panics; the panic itself is not modelled.
- ListareTabulate.Tabulate: requires at least one item, for the same reason.
