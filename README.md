# align-rs text aligner, modelled in Dafny

This project models the library half of `align-rs`, a Rust crate that lines text up.
The method `Align::align_text`, implemented for a `Vec<String>`, works on a block of lines:

- it optionally trims whitespace from each line;
- it measures the widest line;
- it settles on a target width, either the one given or the widest line;
- it pads every line with spaces before it and, if asked, after it, so that the line sits at
  the left, the centre or the right of that width;
- when a centring gap is odd, the `Bias` decides which side gets the extra space.

The work happens on a copy of the block. The copy replaces the block only on success, so an
error (`EmptyVector`, `InsufficientWidth`) leaves the block untouched.

The project has two modules:

- `Text` (`text.dfy`) holds the string primitives the aligner relies on:
  - `Trim` is Rust's `str::trim`, on the 25 Unicode White_Space characters;
  - `Spaces` is `" ".repeat(n)`.
- `Align` (`align.dfy`) holds:
  - the enums `Where`, `Bias` and `Error`;
  - the pure steps: bias offset, padding amount, widest line and width resolution;
  - the specification function `AlignLines`, which gives the result of `align_text` for any
    input;
  - a class `Block` whose `lines` field is the `Vec<String>`. Its method `AlignText` runs the
    source's two in-place loops (`TrimEach`, `PadEach`) and commits the copy at the end,
    proved against `AlignLines`.

The properties proved about `AlignLines` cover:

- the error conditions, in both directions;
- the exact shape of every output line: `Before` spaces, the (trimmed) input line, then the
  rest of the width as spaces only with `keep_spaces`;
- line widths with and without `keep_spaces`;
- that trimming the output gives back the trimmed input;
- idempotence when `trim` or `keep_spaces` is set;
- the three examples of the crate's documentation.

The model follows `src/lib.rs`:

- An empty vector is the error `EmptyVector` (src/lib.rs:99-101), as the crate's documentation
  of `Error` and its doc-test say (src/lib.rs:23-24, 30-35).
- `align_text` takes `width: Option<usize>` and never wraps or splits a long line. The
  `--wrap` flag of the command-line tool (src/main.rs:50-52, 91) has no library code behind it.
- The two-stage inner/outer alignment of the command-line tool is not library code (see Left
  out).

## Model

| member | source | states |
|---|---|---|
| Align.BiasOffset | src/lib.rs:14-21 | `usize::from(bias)` is at most 1, and it is 1 exactly for `Bias::Right` |
| Align.Before | src/lib.rs:122-129 | the spaces put before a line never exceed the free columns `space`: `Left` gives 0 and `Right` gives all of them; `Center` splits `space` evenly when it is even; when it is odd, `Bias::Right` puts the larger half `(space+1)/2` first and `Bias::Left` the smaller half `space/2`; the two sides never differ by more than one |
| Align.TextWidth | src/lib.rs:108-112 | the longest line length is `None` exactly for no lines; otherwise it bounds every line's length and is the length of some line |
| Align.ResolveWidth | src/lib.rs:114-118 | the result is an error exactly when an explicit width is below the widest line, and that error is `InsufficientWidth`; otherwise the width is the given one, or the widest line when none is given, and it holds the widest line |
| Text.IsWhitespace | src/lib.rs:105 | the character class `str::trim` strips: exactly the 25 Unicode White_Space code points that `char::is_whitespace` accepts |
| Text.WhitespaceRange | src/lib.rs:105 | among ASCII characters the whitespace of `str::trim` is exactly space and `\t` through `\r`, and no whitespace character lies above U+3000 |
| Text.Spaces | src/lib.rs:131 | `" ".repeat(n)` has length `n` and only spaces |
| Text.Trim | src/lib.rs:103-106 | a trimmed line is no longer than the input and has no whitespace at either end |
| Text.TrimSpec | src/lib.rs:103-106 | the trimmed line is a middle part of the input with only whitespace before and after it |
| Text.TrimUnique | src/lib.rs:103-106 | any split of a line into whitespace, a middle with no whitespace at its ends, and whitespace has exactly the trimmed line as that middle, so `Trim` strips the maximal whitespace prefix and suffix |
| Text.TrimIdempotent | src/lib.rs:103-106 | trimming a trimmed line changes nothing |
| Text.TrimPadded | src/lib.rs:103-106 | trimming spaces off both sides of a line with no whitespace at its ends gives the line back |
| Align.Prepare | src/lib.rs:103-106 | the block after the trim step has the same number of lines, each one trimmed exactly when `trim` is set |
| Align.TrimEach | src/lib.rs:103-106 | the in-place trim loop leaves every line trimmed, in order |
| Align.PadLine | src/lib.rs:121-135 | a padded line is exactly `width` long with `keep_spaces`; without it, it is `before` plus the line's length; either way it is never wider than `width` |
| Align.PadLineFramed | src/lib.rs:121-135 | a padded line is `Before` spaces, then the line unchanged, then `space - before` spaces only with `keep_spaces` |
| Align.PaddedPrefix | src/lib.rs:121-136 | replacing the next line by its padded form extends the padded prefix of the block by one line and keeps the rest |
| Align.PadAll | src/lib.rs:121-136 | padding keeps the number and the order of the lines and pads each one within the width |
| Align.PadEach | src/lib.rs:121-136 | the in-place padding loop leaves every line padded within the width, in order |
| Align.AlignLines | src/lib.rs:89-140 | `EmptyVector` is returned exactly for an empty block; `InsufficientWidth` exactly when an explicit width is narrower than the widest (trimmed) line; no other error, so the `UnknownError` branch is unreachable; on success the output has as many lines as the input |
| Align.TargetWidth | src/lib.rs:114-118 | the width a non-empty block is aligned in is the one `ResolveWidth` accepts whenever it accepts one |
| Align.AlignLinesOkCases | src/lib.rs:99-118 | a successful alignment had a non-empty block, and its target width passed width resolution |
| Align.AlignLinesOk | src/lib.rs:114-138 | once a width is accepted, every prepared line fits in it, so `width - line.len()` never underflows, and the result is the prepared lines padded within it |
| Align.TargetWidthHoldsLines | src/lib.rs:108-122 | on success the target width is at least every prepared line's length; without an explicit width some line is exactly that wide |
| Align.AlignedLine | src/lib.rs:121-138 | on success, output line `i` is `Before(space)` spaces, then prepared input line `i`, then `space - before` spaces only with `keep_spaces`, where `space` is the target width minus that line's length |
| Align.KeepSpacesFillsWidth | src/lib.rs:114-134 | with `keep_spaces` every output line is exactly the resolved width: the given width, or the widest line when none is given |
| Align.DropSpacesWidth | src/lib.rs:121-135 | without `keep_spaces` each output line is its length plus `before`, never more than the resolved width, and exactly that width for `Right` |
| Align.TextWidthOfUniform | src/lib.rs:108-112 | a block whose lines all have length `w` has widest line `w` |
| Align.TrimPadLine | src/lib.rs:103-106 | trimming a padded line with no whitespace at its ends gives the line back |
| Align.TrimPadAll | src/lib.rs:103-136 | trimming a padded block of such lines gives the block back |
| Align.TrimAligned | src/lib.rs:103-138 | trimming a trimmed alignment's output gives the trimmed input |
| Align.PadFullLine | src/lib.rs:121-135 | a line that already fills the width gets no padding |
| Align.AlignIdempotentTrim | src/lib.rs:89-140 | aligning again, with trimming, an output produced with trimming returns the same output |
| Align.AlignIdempotentKeep | src/lib.rs:89-140 | aligning again, without trimming but keeping spaces, an output produced the same way returns the same output |
| Align.AlignIdempotent | src/lib.rs:89-140 | whenever `trim` or `keep_spaces` is set, aligning an aligned block again with the same arguments changes nothing |
| Align.EmptyVectorExample | src/lib.rs:30-35 | an empty vector gives `Err(EmptyVector)` |
| Align.InsufficientWidthExample | src/lib.rs:37-42 | `"0123456789"` in 3 columns gives `Err(InsufficientWidth)` |
| Align.CenterExample | src/lib.rs:78-87 | the three documented lines, trimmed and centred in 30 columns with `Bias::Right` and kept spaces, give exactly the three documented outputs |
| Align.Block.constructor | src/lib.rs:64 | a block holds the given lines |
| Align.Block.AlignText | src/lib.rs:89-140 | on success the method returns `Ok(())` and the lines become what `AlignLines` gives. On an error it returns that error and the lines are unchanged |

## Left out

- `src/main.rs` is not part of this model. It is command-line glue: argument parsing,
  the terminal-size lookup, reading standard input, and printing. It also calls the library
  with a width type and an error variant (`InsufficientColumns`) that `src/lib.rs` does not
  declare, so its two-stage alignment has no library code behind it.
- Length is counted in characters. The source's `line.len()` counts UTF-8 bytes, so the model
  agrees with it only on ASCII lines.
- Widths are `nat`, not `usize`. Two things are therefore not modelled: the overflow of
  `space + 1` in `(space + bias)/2` when `space` is `usize::MAX`, and allocation failure in
  `" ".repeat`. Both need a line or width near the address-space limit.
- The derives (`Debug`, `Clone`, `Copy`, `PartialEq`) are left out. The `&'static str`
  payload of `UnknownError` is a `string`.
- The two loops of `align_text` are written as separate methods (`TrimEach`, `PadEach`) that
  `Block.AlignText` calls on its local copy. They still rewrite that copy element by element,
  as `iter_mut` does.
