# dgutils colours and POV-Ray writer, modelled in Dafny

This project models two parts of the `dgutils` Python package.

The colour helpers of `dgutils/colors.py`:

- `hex_to_rgb` with `full=True` reads a hex colour string. It strips leading `#`s, cuts the rest into three equal slices and parses each slice as a base-16 integer. An optional transmit value is appended when it is truthy.
- `rgb_to_hex` prints an integer triple as `#rrggbb`. It first scales every channel by 255 when the red channel is below 1.
- `get_color_name` names a colour. It decodes every key of a dictionary literal of named colours (956 entries on 37 source lines) and returns the name whose RGB triple is nearest to the input. A key written twice keeps its first position and its last name. Ties go to the first key in dictionary order.

The scene-file writer of `dgutils/pypov.py`:

- `File` collects output lines at an indent level of two spaces per step. The header lines come first, then `#include` lines for strings and nested `{ … }` blocks for items. A blank line follows each top-level block.
- `Vector` prints as `<a, b, c>`.
- `Item` and `FunctionItem` write their name, a block, the argument line, the options (recursively) and the keyword settings.
- Assigning any attribute other than `name`, `args`, `opts` and `kwargs` also records it as a keyword setting.

Layout of the Dafny modules:

- `PyBase` holds the Python exceptions the model can raise, plus `Option` and `Result`.
- `OrderedDicts` models an insertion-ordered Python dict as a sequence of key/value pairs with distinct keys.
  - A dict display `{k1: v1, …}` is `FromPairs`.
  - Item assignment is `Insert`.
- `HexColors` models `hex_to_rgb` and `rgb_to_hex` on integers.
- `ColorNames` models `get_color_name` on any table of entries, with the nearest-entry and tie-break properties.
- `ColorTable` holds the dictionary literal, one constant per source line.
- `ColorTableFacts` proves that every key decodes, and gives concrete lookups against the real table.
- `PovValues` holds the Python values passed to scene items, their `str()`/`repr()`, and `Vector`.
- `PovItems` holds the item tree and two specifications of writing it:
  - `ItemRun` is a step-by-step state transformer over a `Doc` (the lines and the indent level).
  - `Layout` is a declarative description of the block an item produces.
  - `RunLayout` proves that the two agree.
- `PovFile` holds the `File` class, whose methods change its `lines` and `level` fields, and the recursive `WriteItem` method proved against `ItemRun`. It also holds `ItemObject`, whose `SetAttr` models `__setattr__`.

The model's behaviour on failures:

- The failed `assert` in `dedent` gives an `AssertionError` result.
- A value `str()` cannot print gives a `TypeError`.
  - One case: `"Vector(%s)" % v` where `v` is a tuple whose length is not 1.
  - Another: a `Vector` built around a non-iterable.
- Each failure also keeps the lines written before it: every run function promises that it only appends (`Extends`).

## Model

| member | source | states |
|---|---|---|
| HexColors.HexToRgb | dgutils/colors.py:114-127 | `hex_to_rgb` raises only `ValueError`: from `int(s, 16)` on a bad slice, or from `range` with a step of 0. |
| HexColors.HexToRgbBelow | dgutils/colors.py:118-124 | Every channel fits the width of its slice: it is below 16 to the power `len // 3`. |
| HexColors.LStripHash | dgutils/colors.py:116 | `lstrip('#')` removes a prefix made only of `#`s, and what is left does not start with `#`. |
| HexColors.HexToRgbResult | dgutils/colors.py:114-127 | `hex_to_rgb` succeeds exactly when the text left after stripping `#`s has at least 3 characters, all hex digits. It then gives exactly 3 channels iff that length is a multiple of 3, and never fewer. The transmit entry is the given transmit exactly when that is truthy. |
| HexColors.HexToRgbSix | dgutils/colors.py:114-124 | Six hex digits give three channels: the values of digit pairs 1-2, 3-4 and 5-6, each below 256. |
| HexColors.HexToRgbThree | dgutils/colors.py:114-124 | Three hex digits give three channels, one per digit, each below 16. |
| HexColors.HexToRgbHash | dgutils/colors.py:116 | A leading `#` makes no difference to the result. |
| HexColors.HexToRgbStripped | dgutils/colors.py:116 | For every transmit value, the result depends only on the text left after every leading `#` is stripped. |
| HexColors.LStripIdempotent | dgutils/colors.py:116 | Stripping leading `#`s twice is the same as stripping them once. |
| HexColors.HexToRgbTransmit | dgutils/colors.py:124-127 | The transmit argument never changes the channels. A transmit entry is present iff transmit was given and non-zero. |
| HexColors.ParseHex | dgutils/colors.py:122 | `int(s, 16)` succeeds iff `s` is a non-empty string of hex digits, and the value fits the digit count. |
| HexColors.Chunks | dgutils/colors.py:122 | The slices `value[i:i+step]` concatenate back to the input. Every slice but the last has exactly `step` characters. |
| HexColors.ChunkCount | dgutils/colors.py:118-122 | With `step = len // 3` there are exactly 3 slices iff the length is a multiple of 3, otherwise 4 or 5. |
| HexColors.RgbToHex | dgutils/colors.py:130-137 | `rgb_to_hex` fails iff fewer than three channels are given. Otherwise the text starts with `#` and has at least 7 characters. |
| HexColors.RgbToHexDigits | dgutils/colors.py:130-137 | With red in 1..255 and green and blue in 0..255, the result is `#` plus six lower-case hex digits. |
| HexColors.RgbToHexScaled | dgutils/colors.py:132-136 | With red below 1, every channel is multiplied by 255 before printing. |
| HexColors.RgbRoundTrip | dgutils/colors.py:114-137 | For red in 1..255 and green and blue in 0..255, `hex_to_rgb(rgb_to_hex((r, g, b)))` gives back `(r, g, b)`. |
| HexColors.Format | dgutils/colors.py:137 | `'#%02x%02x%02x' % (r, g, b)` starts with `#` and has at least 7 characters. |
| HexColors.FormatRoundTrip | dgutils/colors.py:137 | Reading back `'#%02x%02x%02x'` of three bytes gives the bytes. |
| HexColors.Hex02 | dgutils/colors.py:137 | `%02x` always has at least two characters. It is exactly two lower-case digits iff the value is in 0..255, and it starts with `-` iff the value is negative. |
| HexColors.Hex02OfValue | dgutils/colors.py:137 | `%02x` of a two-digit hex value prints those digits in lower case. |
| HexColors.RgbToHexRedZero | dgutils/colors.py:131-137 | The integer triple (0, 0, 255) prints as `#0000fe01`. |
| HexColors.ReadRedZero | dgutils/colors.py:114-137 | `#0000fe01` reads back as four channels, not as (0, 0, 255). |
| HexColors.RgbToHexInt | dgutils/colors.py:130-137 | The corrected integer `rgb_to_hex` has the same success condition and shape. |
| HexColors.RgbIntRoundTrip | dgutils/colors.py:114-137 | For every byte triple, reading the corrected hex text back gives the triple. |
| HexColors.HexIntRoundTrip | dgutils/colors.py:114-137 | For six hex digits, printing the channels read from them gives `#` plus the digits in lower case. |
| OrderedDicts.FromPairs | dgutils/colors.py:163-200 | A dict display has distinct keys. |
| OrderedDicts.FromPairsKeys | dgutils/colors.py:163-200 | A dict display has exactly the keys written in it. |
| OrderedDicts.FromPairsValue | dgutils/colors.py:163-200 | Each key of a dict display maps to the value of its last occurrence. |
| OrderedDicts.FromPairsOrder | dgutils/colors.py:163-200 | The keys of a dict display are ordered by their first occurrence. |
| OrderedDicts.Insert | dgutils/pypov.py:191-194 | `d[k] = v` replaces the value in place for an existing key and appends a new key last. The result keeps distinct keys and every other entry. |
| ColorNames.SqDist | dgutils/colors.py:208 | The squared Euclidean distance is zero iff the two colours are equal. |
| ColorNames.ArgMin | dgutils/colors.py:211 | `argmin` returns an index of a minimum that comes before every other index with that minimum. |
| ColorNames.ArgMinUnique | dgutils/colors.py:211 | The first minimal index is the only index `argmin` can return. |
| ColorNames.DecodeKeys | dgutils/colors.py:204-205 | Decoding the keys succeeds iff every key decodes, and keeps them in order. |
| ColorNames.Distances | dgutils/colors.py:208 | The i-th distance is the distance from the i-th key's colour to the input. |
| ColorNames.ColorName | dgutils/colors.py:157-214 | `get_color_name` succeeds iff the dict is non-empty, every key and the input decode, and all have the same channel count. A successful result is one of the dict's names. |
| ColorNames.ColorNameNearest | dgutils/colors.py:203-214 | When entry m is at least as near as every entry and strictly nearer than every earlier one, the result is m's name. |
| ColorNames.KeyCodeDecode | dgutils/colors.py:204-206 | A key with a 24-bit code is six hex digits and decodes to that code's three bytes. |
| ColorNames.Rgb24Injective | dgutils/colors.py:204-208 | Different 24-bit codes give different colours. |
| ColorNames.ExactMatch | dgutils/colors.py:163-214 | An input equal to a key that no other key's colour matches is named by the value of that key's last occurrence. |
| ColorNames.FirstExact | dgutils/colors.py:208-211 | An exact match with no earlier equal row is the first nearest entry. |
| ColorTable.EntriesLength | dgutils/colors.py:163-200 | The literal spans 37 source lines: 36 lines of 26 pairs and a last line of at most 26. There are 956 pairs in all, so the last line holds 20. |
| ColorTable.EntryAt | dgutils/colors.py:163-200 | Entry j of the literal is entry j mod 26 of row j div 26. |
| ColorTableFacts.TableValid | dgutils/colors.py:164-200 | Every key of the literal is six hex digits. |
| ColorTableFacts.LookupRed | dgutils/colors.py:191 | `get_color_name("#FF0000")` is `"Red"`. |
| ColorTableFacts.LookupBlack | dgutils/colors.py:166 | `get_color_name("#000000")` is `"Black"`. |
| ColorTableFacts.LookupCerulean | dgutils/colors.py:169-170 | `get_color_name("#007BA7")` is `"Cerulean"`, the later of the two rows for that key. |
| ColorTableFacts.LookupCocoaBrown | dgutils/colors.py:170-171 | `get_color_name("#D2691E")` is `"Cocoa brown"`, which overwrites `"Chocolate (web)"`. |
| PovValues.JoinFields | dgutils/pypov.py:145-146 | Joining comma-free pieces with `", "` and splitting at `", "` gives the pieces back. |
| PovValues.Iterate | dgutils/pypov.py:146 | Iterating fails with `TypeError` exactly for non-iterables. Tuples and lists yield their elements, strings their characters. |
| PovValues.StrOf | dgutils/pypov.py:145-148 | `str()` of a number or a string is its text. The only failure is `TypeError`. |
| PovValues.StrAll | dgutils/pypov.py:146 | The list of `str()`s succeeds iff every element's `str()` does, and keeps them in order. |
| PovValues.Repr | dgutils/pypov.py:145-148 | `repr()` raises only `TypeError`, and never for a number or a string. A string's repr is the text between single quotes. A `Vector`'s repr is `Vector(…)`. A `Vector` around a tuple of any length but 1 has no repr, because `%` takes the tuple as its argument list. |
| PovValues.VectorStr | dgutils/pypov.py:145-146 | `Vector.__str__` succeeds iff the contents are iterable and every element prints. The result is wrapped in `<` … `>`. |
| PovValues.VectorStrFields | dgutils/pypov.py:145-146 | Between the angle brackets, a vector's text splits at `", "` back into its elements' `str()`s. |
| PovValues.VectorOf | dgutils/pypov.py:141-144 | `Vector(*args)` keeps a single argument as its contents and several arguments as a tuple. |
| PovValues.VectorOfFields | dgutils/pypov.py:141-146 | A vector built from several comma-free arguments prints them back in order. |
| PovItems.NewItem | dgutils/pypov.py:156-164 | `Item(...)` fails with `TypeError` iff `args` is not iterable. Otherwise it keeps name, opts and kwargs, turns tuple and list arguments into `Vector`s and keeps the others. |
| PovItems.Function | dgutils/pypov.py:343-345 | `Function(f, ...)` is a function item named `function` whose argument text is `f`, keeping opts and kwargs. |
| PovItems.Pad | dgutils/pypov.py:132-134 | The indent prefix is two spaces per level, and empty at a level of 0 or below. |
| PovItems.DedentDoc | dgutils/pypov.py:114-116 | `dedent` lowers the level by one and fails with `AssertionError` iff the new level is negative. |
| PovItems.BlockEndDoc | dgutils/pypov.py:120-125 | `block_end` succeeds iff the level is positive. It lowers the level and writes `}` at the new level, plus a blank line when it reaches 0. |
| PovItems.BlockBalanced | dgutils/pypov.py:117-125 | `block_begin`, any lines at the deeper level, then `block_end`: the level comes back unchanged, and the braces are written at the outer indent. |
| PovItems.NamedBlock | dgutils/pypov.py:167-190 | Writing a name, a block and its inner lines appends exactly the named block at the current level. |
| PovItems.ArgsLine | dgutils/pypov.py:170-171 | The argument line exists iff every argument prints. |
| PovItems.KwargShapes | dgutils/pypov.py:177-189 | A keyword setting whose value is a tuple or list of any length but 1 prints as `key <…>`, or as `color rgbt <…>` for a four-element `color` of an `Item`. For a one-element tuple or list, `Vector(*(x,))` makes `x` itself the contents, so the line is `key` and `x`'s vector text: `(5,)` raises `TypeError`, and `("ab",)` gives `<a, b>`. Any other value prints as `key val`. |
| PovItems.KwargLine | dgutils/pypov.py:177-189 | One keyword line succeeds exactly when the value, or the vector made from it, prints. It then starts with the key and a space. The only failure is `TypeError`. |
| PovItems.KwargsLines | dgutils/pypov.py:177-189 | The keyword lines succeed iff every setting prints. There is then one line per setting, in dict order, at the current indent. |
| PovItems.ItemRun | dgutils/pypov.py:167-190 | Writing an item never changes a line already written, and a successful write ends at the level it started from. From a non-negative level, the only exception is `TypeError`. |
| PovItems.WriteRun | dgutils/pypov.py:126-131 | `File.write` never changes a line already written, and a successful call ends at the level it started from. From a non-negative level, the only exceptions are `TypeError` and `AttributeError`. |
| PovItems.WriteRunLayout | dgutils/pypov.py:109-131 | From a non-negative level, `File.write` succeeds iff its layout exists: an `#include` line and a blank line per string, and the block of each item, in argument order. It then appends exactly those lines and keeps the level. When it raises, the error is the first failing argument's. |
| PovItems.RunLayout | dgutils/pypov.py:167-190 | Writing an item from level ≥ 0 succeeds iff its layout exists. It then appends exactly that layout and leaves the level unchanged. The only failure is `TypeError`. |
| PovItems.OptsRunLayout | dgutils/pypov.py:173-177 | Writing the options succeeds iff their layout exists, and appends it. |
| PovItems.KwargsRunLayout | dgutils/pypov.py:177-189 | Writing the keyword settings succeeds iff their layout exists, and appends it. |
| PovItems.LayoutShape | dgutils/pypov.py:167-190 | An item's block is its name line, `{`, inner lines indented one level deeper, and `}`, plus a blank line at level 0. |
| PovItems.LayoutPadded | dgutils/pypov.py:167-190 | Inside a block, every written line carries at least its level's indent. |
| PovFile.File.constructor | dgutils/pypov.py:103-107 | A new file holds the two header lines at level 0. |
| PovFile.File.Open | dgutils/pypov.py:103-108 | `File(fnam, *items)` writes the header and then the items. It succeeds iff the items' layout at level 0 exists, and the file is then the header followed by that layout. |
| PovFile.File.Writeln | dgutils/pypov.py:132-134 | `writeln(s)` appends `s` after the current indent, and the level is unchanged. |
| PovFile.File.Indent | dgutils/pypov.py:112-113 | `indent` raises the level by one and writes nothing. |
| PovFile.File.Dedent | dgutils/pypov.py:114-116 | The new state and outcome are those of `DedentDoc`. |
| PovFile.File.BlockBegin | dgutils/pypov.py:117-119 | `block_begin` writes `{` and indents. |
| PovFile.File.BlockEnd | dgutils/pypov.py:120-125 | The new state and outcome are those of `BlockEndDoc`. |
| PovFile.File.Include | dgutils/pypov.py:109-111 | `include` writes `#include "name"` and a blank line. |
| PovFile.File.Write | dgutils/pypov.py:126-131 | The loop follows `WriteRun`: a string is included, an item writes itself, and anything else raises `AttributeError`. From a non-negative level it succeeds iff `WriteLayout` exists, and then appends exactly those lines and keeps the level. Otherwise it raises the layout's error. |
| PovFile.WriteItem | dgutils/pypov.py:167-190 | `Item.write` / `FunctionItem.write` change the file exactly as `ItemRun` says. |
| PovFile.WriteHead | dgutils/pypov.py:170-171 | The argument line is written only when there are arguments: the joined `str()`s for an `Item`, the raw text for a `FunctionItem`. |
| PovFile.WriteOpts | dgutils/pypov.py:172-176 | The options are written in order: items recursively, other values by their `str()`. |
| PovFile.WriteKwargs | dgutils/pypov.py:177-189 | The keyword settings are written in dict order. |
| PovFile.ItemObject.constructor | dgutils/pypov.py:156-164 | A new item object has no instance attributes besides its item. |
| PovFile.ItemObject.SetAttr | dgutils/pypov.py:191-194 | Setting a non-reserved attribute stores it and records it in `kwargs`, replacing in place or appending last. |
| PovFile.SetAttrWritten | dgutils/pypov.py:177-194 | After an attribute is set, the item's keyword lines show the new value at the key's old position, or last for a new key, and all other lines are unchanged. |

## Left out

- `rgb2lab`, `get_color_name_lab` and the rest of the LAB colour code use floating point and are not part of this model.
- The `full=False` path of `hex_to_rgb` scales by the float 1/255 and is not modelled. Only `full=True` is, so channels are integers.
- HexColors.ParseHex: Python's `int(s, 16)` also accepts surrounding whitespace, a sign, a `0x` prefix and underscores. The model accepts only hex digits.
- HexColors.RgbToHex: float channels (`int(255 * 0.5)`) are not modelled. The channels are integers, so "below 1" means 0 or negative.
- `get_alpha_hex` uses floats and is not modelled.
- The plotting helpers (`get_cycle_colors`, `colorize_plot`, `view_colors`, `get_linear_colors`) depend on matplotlib and are not modelled.
- ColorNames.SqDist: `numpy.linalg.norm` takes a float64 square root. The model keeps exact integer squared distances, which rank entries the same way as long as the float64 arithmetic is exact.
- ColorNames.ColorNameNearest: the model matches NumPy only for inputs of at most 18 hex digits after the `#`s, where squared distances stay below 2^53 and float64 is exact. Beyond that, float64 rounding can make different distances equal. NumPy's `argmin` then returns the first of them in dict order, while the model returns the exactly nearest entry.
- ColorNames.ColorName: for very long inputs, with channels that do not fit NumPy's 64-bit integers, NumPy computes the norm through floats or Python objects and can raise `TypeError`. The model's success condition treats those inputs like any other, so it matches the source only for inputs of at most 18 hex digits.
- Lookups in the real colour table (`ColorTableFacts`) are proved only for the four example keys (Red, Black, Cerulean, Cocoa brown). No lemma covers the whole table, such as a count of distinct keys or distinct colours for distinct keys.
- In `pypov.py`, the rendering helpers (`pov_run`), the camera/light/shape subclasses other than `Function`, the `sweep`/`spiral`/`linear` float helpers and `Vector.__mul__` are not modelled.
- `Item.append` and `FunctionItem.append` mutate a shared `opts` list. Items are values here, so aliasing between items is not modelled.
- `Item.__setitem__` and `__getitem__` refer to an undefined `args` name and cannot run as written. They are not modelled.
- PovFile.File: the OS file handle, the file name, `close` and `os.linesep` are not modelled. The file is the list of lines written.
- PovFile.File.Open: the file name argument is not modelled.
- PovValues.Repr: a string's `repr()` is modelled as the text between single quotes. This is exact only for strings without quotes, backslashes or unprintable characters.
- PovItems.Function: a `FunctionItem`'s `args` is modelled as a string, the only form `Function` passes.
- PovFile.WriteOpts: options that are `File` objects or other objects with a `write` method are not modelled. An option is an item or a plain value.
- PovFile.ItemObject.SetAttr: rebinding `name`, `args`, `opts` or `kwargs` is not modelled (it requires a non-reserved name).
- `savehtml.py`, `fonts.py` and `setup.py` are not part of this model.

## Findings

| source | as written | input that shows it | evidently intended | confidence | as-written member | corrected member |
|---|---|---|---|---|---|---|
| dgutils/colors.py:130-137 | When the red channel is below 1, all channels are scaled by 255. An integer triple with red 0 is treated as a float triple. | `rgb_to_hex((0, 0, 255))` gives `#0000fe01`, which `hex_to_rgb` reads as four channels | integer channels printed as they are: `#0000ff` | not executed | HexColors.RgbToHexRedZero | HexColors.RgbIntRoundTrip |
