# codephoto rendering core, modelled in Dafny

codephoto turns a snippet of source code into a picture of that code "on a
screen in a photo". `highlighter.py` highlights the code with Pygments into a
bitmap and warps the bitmap onto a background photo. `app.py` is the Flask
front end that names and serves the result. This project models the
deterministic glue of that pipeline and proves what it promises:

- `Lines`: `limit_input`, which cuts or pads the text to 47 lines. It includes
  a full model of Python's `str.splitlines` and of `"\n".join`.
- `Sidecar`: `get_matrix_file`, which derives the path of the JSON sidecar
  file that holds a background's perspective coefficients.
- `Matrices`: the `matrix_cache` memo table and `get_matrix`, modelled as a
  class whose map field is updated in place. The sidecar loader is a function
  parameter that may fail. A ghost counter records how many sidecar reads
  happened. The module also covers the matrix choice in `transform`.
- `Languages`: the lazily filled `languages` list of `get_languages`. This
  includes a string sort with Python's `str` ordering, proved sorted, a
  permutation and unique.
- `LexerChoice`: the lexer choice and text normalisation of `make_image`, and
  the dark/light choice of `get_formatter`.
- `Formatter`: `CustomFormatter.format`. The image is a log of draw commands,
  so the painting order can be stated.
- `FileNames`: `create_fname` over a given byte sequence, and the
  `upload/<name>.png` path shared by saving and lookup.

Abstract collaborators are passed as parameters:
- Pygments' `find_lexer_class` and `guess_lexer`.
- The lexer registry names.
- The sidecar loader, which stands for `open` plus `json.load(f)["coefficients"]`.
- Pygments' drawables, line geometry and image size.
- The random bytes of `create_fname`.

Behaviour of the code worth noting:
- A non-empty language hint that Pygments does not know is an error. The code
  calls `None()`; it does not fall back to guessing.
- Hints are matched through `find_lexer_class`, which looks up the lexer by
  name. There is no alias handling in this code.
- The number of coefficients in a sidecar is not checked. Whatever the
  `coefficients` field holds is stored.
- Padding lines are a single space `" "`, not empty lines.
- The language list keeps duplicate registry names. It is a sorted list, not
  a sorted set.
- The cache takes no lock and does nothing special when two first loads race.

The annotation `Dict[str, List[int]]` on `matrix_cache` names types that are
never imported. The model keeps the intent: a map that starts empty. The
coefficients are stored as `seq<real>`, since JSON numbers and perspective
coefficients are real-valued. The global `languages` is never defined in
`highlighter.py`; the model makes it an explicit field that starts empty.

## Model

| member | source | states |
|---|---|---|
| `Lines.SplitLines` | highlighter.py:57 | No line returned by `splitlines` contains a line boundary character |
| `Lines.LimitLines` | highlighter.py:58-61 | Exactly `max_lines` lines. Line i is input line i when it exists, otherwise the padding `" "`. So longer input keeps its first `max_lines` lines, shorter input is kept whole and padded, and input of exactly `max_lines` lines is unchanged |
| `Lines.Join` | highlighter.py:62 | `"\n".join` of no lines is empty. When no line holds a newline, the newlines of the result are exactly those of the separators between the lines: one separator fewer than there are lines |
| `Lines.LimitInput` | highlighter.py:56-62 | For any content, the output of `limit_input` holds exactly `max_lines - 1` newlines, so it has `max_lines` lines. It is empty when `max_lines` is 0 |
| `Lines.SplitJoin` | highlighter.py:57-62 | `splitlines` undoes `"\n".join` when no line holds a boundary and the last line is not empty |
| `Lines.LimitInputResplit` | highlighter.py:56-62 | When the text is padded, or the last kept line is not empty, re-splitting the output of `limit_input` gives back exactly the `max_lines` kept lines |
| `Lines.TruncatedEmptyLastLine` | highlighter.py:57-62 | A kept text whose last line is empty ends in `"\n"`, so it re-splits into fewer lines. For example, `"a\n\nb"` cut to 2 lines gives `"a\n"`, which re-splits to `["a"]` |
| `Sidecar.Stem` | highlighter.py:69 | `rsplit(".", maxsplit=1)[0]` is a prefix of the path. It is the whole path when the path has no dot; otherwise it is followed in the path by a dot, and no dot comes after that one |
| `Sidecar.MatrixFile` | highlighter.py:68-69 | The result ends in `.json`. What precedes `.json` is a prefix of the background path: either the whole path when it has no dot, or the text before its last dot |
| `Sidecar.MatrixFileIdempotent` | highlighter.py:68-69 | Deriving the sidecar path of a sidecar path gives the same path |
| `Matrices.Fetch` | highlighter.py:72-76 | A hit returns the stored value and leaves the cache unchanged. A miss returns what the loader gave for the sidecar path. A failed load leaves the cache unchanged. A successful miss adds exactly the key `bg` with the loaded value and keeps every other entry |
| `Matrices.FetchTwice` | highlighter.py:72-76 | A second call for the same background returns what the first returned. After a successful first call it is a hit that leaves the cache as it was |
| `Matrices.FetchKeepsEntries` | highlighter.py:73-75 | Stored entries are never changed or dropped |
| `Matrices.FetchStoresAnyLength` | highlighter.py:74-75 | Whatever the `coefficients` field holds is stored, whatever its length |
| `Matrices.MatrixCache.constructor` | highlighter.py:65 | The cache starts empty and no sidecar has been read |
| `Matrices.MatrixCache.GetMatrix` | highlighter.py:72-76 | The result and the new cache are those of `Fetch` on the old cache. The sidecar is read once on a miss and never on a hit |
| `Matrices.MatrixCache.ResolveMatrix` | highlighter.py:81-82 | Coefficients the caller supplies are used as given, with no read and no cache change. Otherwise the call behaves as `get_matrix` |
| `Matrices.GetMatrixTwice` | highlighter.py:72-76 | Two calls for one background return equal values. When they succeed, they read the sidecar at most once |
| `Languages.SortNames` | highlighter.py:104-106 | `sorted(...)` of the registry names is sorted under Python's string order and is a permutation of them, duplicates included |
| `Languages.SortedUnique` | highlighter.py:104-106 | Two sorted permutations of the same names are equal, so the catalog is determined by the registry |
| `Languages.LanguageCatalog.constructor` | highlighter.py:103 | The list starts empty |
| `Languages.LanguageCatalog.GetLanguages` | highlighter.py:102-107 | An empty list is filled with the sorted permutation of the registry names. A filled list is left as it was. The list is returned |
| `Languages.GetLanguagesTwice` | highlighter.py:102-107 | After the first call fills the list from a non-empty registry, the list is `sorted(names)`, and a later call returns the same list whatever the registry is then |
| `LexerChoice.ThemeFor` | highlighter.py:32-53 | `get_formatter` picks the dark theme exactly when `dark` is set |
| `LexerChoice.Options` | highlighter.py:34-52 | Both themes draw line numbers in 14-point DejaVu Sans Mono with an 8-pixel image pad. Dark uses the monokai style with gutter colours #272822 and #888888; light uses tango with #e0e0e0 and #999999 |
| `LexerChoice.GetFormatter` | highlighter.py:32-53 | `get_formatter` returns the dark options exactly when `dark` is set (the style is monokai exactly then), and the light options otherwise |
| `LexerChoice.ThemesShareLayout` | highlighter.py:32-53 | Both themes use the same font, font size, pad and line numbers. They differ in style and gutter colour |
| `LexerChoice.ChooseLexer` | highlighter.py:92-96 | A missing or empty hint gives the guesser's lexer for the content. A non-empty hint succeeds exactly when the registry knows it, and then gives the registry's lexer. An unknown non-empty hint is the error of calling `None` |
| `LexerChoice.HintIgnoresGuesser` | highlighter.py:93-96 | With a non-empty hint the guesser is never consulted: any two guessers give the same outcome, the error included |
| `LexerChoice.PlanImage` | highlighter.py:91-98 | `make_image` up to `highlight` fails exactly when the lexer choice fails, with the same error. Otherwise it hands on the chosen lexer, the content normalised by `limit_input` with 47 lines, the formatter of `get_formatter(dark)`, and the background and matrix unchanged |
| `LexerChoice.PlanImageInputs` | highlighter.py:91-98 | Without a hint the lexer is guessed from the raw content. Highlighting receives the text normalised to 47 lines (46 newlines). An unknown hint fails. The style is monokai for dark and tango otherwise |
| `LexerChoice.MakeImage` | highlighter.py:91-99 | A lexer failure happens before the matrix cache is consulted, so the cache and its read count are unchanged. A matrix the caller gives is used with no read and no cache change. Otherwise the matrix and the new cache are those `get_matrix` gives, with one sidecar read on a miss and none on a hit |
| `Formatter.Bands` | highlighter.py:23-26 | One band per highlighted line, in order. The k-th band is the rectangle of the k-th highlighted line n: from the band's left edge to the image width, with top `line_y(n-1)` and height `line_height` |
| `Formatter.Texts` | highlighter.py:27-28 | One text command per drawable, in order. The k-th draws the k-th drawable in its foreground colour; the background colour is ignored |
| `Formatter.Commands` | highlighter.py:16-28 | The gutter is painted first. Next comes one band per highlighted line, in order; there is none when `hl_lines` is empty. Last comes one text per drawable, in order |
| `Formatter.BandsBeforeTexts` | highlighter.py:16-28 | No command after the first is the gutter paint, and no band follows a text |
| `Formatter.NoBandsWithoutHighlight` | highlighter.py:19-26 | With no highlighted lines, which is what `get_formatter` sets up, the command log holds no rectangle at all |
| `Formatter.DrawBands` | highlighter.py:20-26 | The loop over `hl_lines`, drawing from `x` to `x + rectw` with `rectw = width - x`, issues exactly the bands of `Bands`, so each band ends at the image width |
| `Formatter.DrawTexts` | highlighter.py:27-28 | The loop over the drawables issues exactly the texts of `Texts` |
| `Formatter.CustomFormatter.constructor` | highlighter.py:34-52 | A formatter keeps the geometry and highlight settings it is given, with no drawables and no image. Pygments derives those settings (`line_number_width`, `line_number_pad`, `hl_lines`, `hl_color`, the background colour) in its own initialiser from the keyword arguments of these lines; that derivation is not modelled |
| `Formatter.CustomFormatter.Format` | highlighter.py:8-29 | The drawables made for the tokens and line numbers are appended to the formatter's drawables, which are never cleared. `self.image` is a new image of the given size and background colour. Its command log is that of `Commands` with left edge `x = image_pad + line_number_width - line_number_pad + 1` over all the formatter's drawables |
| `FileNames.ByteHex` | app.py:36 | `hex(b)[2:]` has one digit below 16 and two otherwise, with no leading zero. All digits are lower-case hex, and they read back as `b` |
| `FileNames.CreateFname` | app.py:35-36 | The name has between `l` and `2*l` characters, all lower-case hex digits |
| `FileNames.DefaultNameLength` | app.py:35-36 | With the default `l=6`, the name has 6 to 12 characters |
| `FileNames.CreateFnameNotInjective` | app.py:36 | Bytes `[0x01,0x23]` and `[0x12,0x03]` both give the name `"123"` |
| `FileNames.PathJoin` | app.py:48 | `os.path.join(a, b)` ends in `b`. An absolute `b` is returned alone. Otherwise the result starts with `a`, followed by exactly one `/` unless `a` is empty or already ends in `/`, and then `b` |
| `FileNames.UploadPath` | app.py:48 | A name that does not start with `/` is saved at `upload/<name>.png`; an absolute name would escape the folder as `<name>.png` |
| `FileNames.RedirectUrl` | app.py:51 | For a non-empty name that does not start with `/`, the `/i/<path:filename>` route, modelled as a prefix match, reads the redirect target back as that name. Generated names are hex digits only, so for them this is what Flask does |
| `FileNames.RouteFilename` | app.py:54-55 | The route matches exactly the URLs `/i/` followed by a non-empty filename that does not start with `/`, and the filename is the rest of the URL |
| `FileNames.LookupPath` | app.py:54-56 | A request has a lookup path exactly when the route matches, and that path is `upload/<filename>.png`. The filename is joined unchecked, so `..` segments in it can reach outside the upload folder |
| `FileNames.LookupFollowsDotDot` | app.py:54-57 | A request for `/i/../../etc/x` makes the lookup test `upload/../../etc/x.png`, a path outside the upload folder |
| `FileNames.RedirectLookup` | app.py:51-56 | For any name the prefix-matching route accepts, the redirect `/i/<name>` is routed back to that name, and the lookup checks `upload/<name>.png` |
| `FileNames.RedirectFindsSavedImage` | app.py:48-56 | The redirect `/i/<name>` after saving makes `custom_static` check exactly the path the image was saved under, `upload/<name>.png` |
| `FileNames.UploadPathRoundTrip` | app.py:48 | The name can be read back from its upload path, so distinct names never share a path |

## Left out

- `transform` (highlighter.py:79-88): the perspective warp, bilinear resampling, white fill and multiply blend are floating-point image work inside PIL. Only the choice of the matrix is modelled.
- Pygments internals are abstract parameters: tokenising, `guess_lexer`'s heuristics, `find_lexer_class`'s registry, `_create_drawables`, `_draw_line_numbers`, `_get_line_y`, `_get_line_height`, `_get_image_size`, `_paint_line_number_bg` and font metrics. The `highlight` call itself is not modelled.
- File and JSON I/O (`open`, `json.load`, `Image.open`, `.save`, `os.path.exists`) is not modelled. The sidecar read is an abstract loader that may fail.
- `FileNames.RedirectUrl`, `FileNames.RouteFilename`, `FileNames.LookupPath` and `FileNames.RedirectLookup`: the route is a plain prefix match. Flask's query-string and fragment splitting, percent-decoding and slash merging are not modelled, so for a name holding `?`, `#`, `%` or `//` the real route reads a different filename. The names `create_fname` makes are hex digits only and are unaffected, as `FileNames.RedirectFindsSavedImage` states.
- Flask routing, CORS, form validation, templates and `send_from_directory` are not modelled. Only the `/i/<path:filename>` route is modelled, as a prefix match.
- `Matrices.FetchTwice` and `Matrices.GetMatrixTwice`: both calls consult the same loader, a function of the sidecar path. So a failing first call is repeated by the second only if the sidecar files do not change in between. The file system is not modelled.
- Randomness is not modelled. `random.randbytes` and the random background choice are inputs.
- Concurrency is not modelled: the code has no locking.
- `get_formatter`: beyond the dark/light choice and the option values it passes, the Pygments styles `monokai` and `tango` are not modelled. `get_formatter` never sets `hl_lines`, so in this program the band loop of `format` never draws a rectangle. The model keeps `hl_lines` as a parameter, and `Formatter.NoBandsWithoutHighlight` states that with none the log holds no rectangle.
- Pygments strips leading and trailing newlines from its input. That is not modelled: the model stops at the text handed to `highlight`.
