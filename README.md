# vuut2 core in Dafny

A model of the logic at the heart of vuut2, a terminal chat client for
Discord written in Python, with proofs of what that logic promises. Four
pieces are covered:

- **The command framework** (`src/cmdlib/core.py`, `src/cmdlib/utils.py`).
  `parse_flags` splits an argument list into `--flag` booleans,
  `-flag value` pairs and positional arguments. The `Parser` and every
  `Command` keep a registry of (sub)commands with an alias table. `parse`
  resolves a name and descends greedily into subcommands. `add_flag`
  declares flags, and the flag half of `invoke` resolves flag aliases,
  rejects undeclared flags, fills in defaults and marks passed flags.
  `safeget` and `safegetrange` are Python list access with fallbacks.
- **The viewport and scroll engine** (`src/page.py`). A `ScrollablePage`
  has logical lines, a viewport of wrapped lines, a window height and a
  scroll head. It supports scrolling, rendering the window, rewrapping, and
  remapping the head when the window is resized. An `AutoScrolledPage`
  follows the newest line until the user scrolls up. A `ChannelChatPage`
  shows a channel's messages once it has been opened, each behind a
  clock/author prefix. A `PageManager` holds the pages and the focus.
- **The status modal** (`src/modal.py`). A `ModalLine` has a left, centre
  and right fragment. It drops fragments by priority until the rest fits,
  then pads them to a fixed width. A `Modal` keeps an expiry time per
  fragment slot and clears slots whose time has come.
- **Markup text** (`src/text.py`, `src/utils.py`). `strip_wrappers`
  removes the seven paired style markers (`**`, `*`, `` ` ``, `_`, `<g>`,
  `<r>`, `<y>`) in their fixed order. `Text` measures display width without
  the markers. `lr_justified` and `with_prefix` build the padded prefix of
  a chat line.

Each regular expression `D(.+?)D` of `strip_wrappers` is modelled directly.
The text is scanned left to right. At each position the shortest non-empty
group holding no newline and followed by the closing delimiter is taken,
and the scan resumes after the match. This is `Markup.SubPair`.
`textwrap.wrap` is replaced by a fixed-width chunker, `Wrapping.Wrap`. The
scroll, window and head-remapping properties hold for any wrapping of the
lines; the properties that speak of the wrapped text itself (that it puts
back together to the original) are properties of the chunker, since
`textwrap.wrap` drops whitespace at the breaks. The clock
(`time.time()`, message timestamps) and configuration constants
(`OUTPUT_BORDER_ENABLED`, `PREFIX_LEN`) are parameters.

Python semantics are written out where they matter:
- floor division and `math.ceil` of a quotient (`Pages.CeilDiv`);
- negative list indices and slices (`CmdUtils.SafeGet`, `Pages.SliceFrom`);
- `' ' * n` being empty for negative `n` (`Markup.Spaces`);
- the truthiness test `if timeout`, under which 0 means "no timeout" (`ModalLayout.Deadline`);
- dict insertion order (`Commands.Dict`, an association list).

Quirks of the source are reproduced, not repaired:
- `on_scroll_down` can drive the head below zero when there are fewer
  viewport lines than the window is high (`Pages.ScrollDownCanGoNegative`).
- `remove_command` looks the command up by the object rather than its
  name, so it never changes the registry (`Commands.Parser.RemoveCommand`).
- `add_command` and `add_subcommand` check a new name against registered
  names only, so it can take over another command's alias
  (`Commands.NameTakesOverAlias`).
- `Flag.passed` is set by `invoke` and never reset
  (`Commands.InvokeFlags`).
- `get_renderable` of a modal line loops forever for a width of zero or
  less; that case is a precondition of `ModalLayout.ModalLine.GetRenderable`.

Python inheritance is modelled by composition: an `AutoScrolledPage` holds
the `ScrollablePage` whose methods it extends, and a `ChannelChatPage`
holds an `AutoScrolledPage`. Exceptions become the `Errors.Error` datatype,
returned through `Result` or `Option`.

## Model

| member | source | states |
|---|---|---|
| CmdUtils.SafeGet | src/cmdlib/utils.py:3-7 | a valid index, counted from the front when non-negative and from the back when negative, gives that element; any other index gives the default |
| CmdUtils.SafeGetFromEnd | src/cmdlib/utils.py:3-7 | a negative index names the same element as its non-negative twin |
| CmdUtils.SafeGetRange | src/cmdlib/utils.py:9-18 | IndexError exactly when `ds` has fewer than `i - len(l)` entries; otherwise exactly `max(i, 0)` elements, `l`'s prefix first and then `ds` in order |
| Markup.WrappersAreDelimiters | src/text.py:29-39 | every wrapper starts with a marker character and holds no space or newline |
| Markup.InnerLength | src/text.py:30-38 | a lazy group found by a pattern is followed by the closing delimiter inside the text |
| Markup.InnerLengthLeast | src/text.py:30-38 | the group is the shortest one: the closing delimiter does not occur earlier and the group holds no newline |
| Markup.InnerLengthComplete | src/text.py:30-38 | whenever the closing delimiter follows a newline-free non-empty group, a group is found, no longer than that one |
| Markup.MatchAtWrapped | src/text.py:30-38 | a delimiter, a non-empty markup-free single-line text and the delimiter again form a match whose group is exactly that text |
| Markup.SubPairRemoves | src/text.py:41-46 | substituting one style strips the delimiters around such a text and carries on with what follows |
| Markup.StripWrappersBoldThen | src/text.py:41-46 | a non-empty markup-free single-line text in `**` at the head of a line is shown as that text, and the rest of the line is stripped as if it stood alone |
| Markup.StripWrappersBold | src/text.py:41-46 | `strip_wrappers` of a non-empty markup-free single-line text in `**` is that text |
| Markup.StripWrappersShrinks | src/text.py:41-46 | removing the wrappers never makes a text longer |
| Markup.StripWrappersMarkupFree | src/text.py:41-46 | text with no marker character comes back unchanged |
| Markup.StripWrappersPrefix | src/text.py:41-46 | a markup-free prefix is kept verbatim and the rest is stripped as if it stood alone |
| Markup.StripWrappersSuffix | src/text.py:41-46 | trailing spaces are kept verbatim and never close a wrapper |
| Markup.StripWrappersPadded | src/text.py:41-46 | padding a fragment with spaces on both sides adds exactly those columns to its display width |
| Markup.Text.Clean | src/text.py:92-94 | the clean text is never longer than the raw text and equals it when there is no markup |
| Markup.Text.Size | src/text.py:84-90 | the display size never exceeds the raw size and equals it when there is no markup |
| Markup.Text.Add | src/text.py:96-97 | the result is the raw text followed by the other string |
| Markup.LrJustified | src/text.py:7-12 | ValueError exactly when the display sizes add up to more than `n`; otherwise left, the missing columns as spaces, then right |
| Markup.LrJustifiedDisplayWidth | src/text.py:7-12 | with a markup-free left part, the result spans exactly `n` display columns whatever markup the right part holds |
| Markup.LrJustifiedRawWidth | src/text.py:7-12 | with no markup in either part, the result is exactly `n` characters long |
| Markup.EncloseNests | src/text.py:22-25 | the formatting tags nest: the first tag opens first and closes last |
| Markup.WithPrefix | src/text.py:14-27 | ValueError exactly when the clock and author do not fit in `len_max - 3` columns; otherwise the justified prefix (or as many spaces as its display width on later lines), `" \| "`, and the body enclosed in the tags |
| Markup.WithPrefixAligned | src/text.py:14-27 | with a clock that has no markup, the first line's prefix spans `len_max - 3` display columns and later lines carry exactly that many spaces in its place |
| Markup.ContinuationLineWidth | src/text.py:14-27 | a later line's display width is the prefix width, three separator columns and the display width of the enclosed body |
| TextUtils.LrJustified | src/utils.py:11-16 | ValueError exactly when the parts are too wide; otherwise the result starts with left, ends with right, and holds a non-negative run of the missing spaces between them |
| TextUtils.SameAsMarkup | src/utils.py:11-16 | the copy in `src/utils.py` computes the same result as the one in `src/text.py` |
| TextUtils.RawWidth | src/utils.py:11-16 | with no markup in either part, the result is exactly `n` characters long |
| Wrapping.Wrap | src/page.py:109 | every wrapped piece is non-empty and at most `width` long, and an empty line gives no piece |
| Wrapping.WrapKeepsText | src/page.py:109 | the fixed-width chunker standing in for `textwrap.wrap` loses no character: its pieces put back together are the line |
| Wrapping.WrapAll | src/page.py:105-112 | every viewport line is non-empty and at most `width` long |
| Wrapping.WrapAllKeepsText | src/page.py:105-112 | with the chunker as the wrapper, the viewport holds exactly the text of the logical lines, in order |
| Wrapping.Split | src/page.py:39 | `split('\n')` gives at least one piece and no piece holds a newline |
| Wrapping.JoinSplit | src/page.py:39 | splitting on newlines and joining back gives the text again |
| Wrapping.SplitJoin | src/page.py:95 | joining newline-free lines and splitting again gives the lines back |
| ModalLayout.DropOnce | src/modal.py:44-50 | one turn of the drop loop removes exactly one fragment |
| ModalLayout.Survivors | src/modal.py:42-50 | the kept fragments are narrower than the width; all are kept when they already fit; otherwise the centre goes first, then the right fragment, then the left one |
| ModalLayout.SurvivorsOfThree | src/modal.py:42-50 | three fragments are kept whole, without the centre, as the left one alone, or not at all: the first of these that fits |
| ModalLayout.PlaceOneGaps | src/modal.py:55-60 | a single fragment sits between `(free)//2` spaces and the rest of the free columns |
| ModalLayout.PlaceThreeGaps | src/modal.py:67-73 | three fragments get two gaps summing to the free columns, the second equal to the first or one wider |
| ModalLayout.LayoutBlank | src/modal.py:52-53 | with nothing kept the line is exactly `n` spaces |
| ModalLayout.LayoutCentred | src/modal.py:55-60 | one fragment is centred, the right padding equal to the left or one more, and the line spans exactly `n` display columns |
| ModalLayout.LayoutTwo | src/modal.py:62-65 | two fragments are pushed to the edges with the free columns between them |
| ModalLayout.LayoutThree | src/modal.py:67-73 | three fragments are separated by two gaps summing to the free columns, the second equal to the first or one wider |
| ModalLayout.ModalLine.constructor | src/modal.py:6-12 | the fragments given, padded with empty strings to at least three |
| ModalLayout.ModalLine.GetRenderable | src/modal.py:38-73 | the drop loop ends with the fragments that `Survivors` keeps, and the line is their layout |
| ModalLayout.Deadline | src/modal.py:97-98 | a slot gets an expiry time exactly when the timeout is given and non-zero, and that time is `now + timeout` |
| ModalLayout.DeadlineExpires | src/modal.py:90-92 | a slot set with a positive timeout counts as expired from its deadline on, and not before |
| ModalLayout.SweepClearsExpired | src/modal.py:86-92 | after a screen update no slot is still expired, and every slot that had not expired keeps its time |
| ModalLayout.SweepIdempotent | src/modal.py:86-92 | a second update at the same time changes nothing |
| ModalLayout.Modal.constructor | src/modal.py:76-84 | the given lines followed by fresh blank lines up to `max_lines`, and no slot with an expiry time |
| ModalLayout.Modal.Set | src/modal.py:94-98 | only the addressed fragment and its expiry change, and the expiry is the deadline of the timeout |
| ModalLayout.Modal.SetLine | src/modal.py:100-104 | only the addressed line is replaced, and its three slots share one expiry |
| ModalLayout.Modal.OnScreenUpdate | src/modal.py:86-92 | exactly the expired slots are emptied and lose their expiry; every other slot and every line past `max_lines` is unchanged |
| ModalLayout.Modal.SweepLine | src/modal.py:89-92 | one turn of the outer loop sweeps the three slots of one line and nothing else |
| Pages.Window | src/page.py:79-90 | the window holds exactly the viewport lines whose index lies in `[head, head + h)`, in order, and never more than `h` of them |
| Pages.WindowStep | src/page.py:83-90 | one more viewport line extends the window by that line exactly when its index is in the window |
| Pages.WindowStop | src/page.py:87-88 | lines past the window's end add nothing, so the early break is safe |
| Pages.PinnedWindowShowsNewest | src/page.py:79-90 | with the head at the bottom, the window is the newest `h` lines |
| Pages.SliceFrom | src/page.py:94 | Python's `s[k:]` with a negative `k` counting from the end is a suffix of `s` |
| Pages.TrimIsNoOp | src/page.py:94 | the final trim to the last `h` lines never removes anything from the window |
| Pages.CeilDiv | src/page.py:125 | the ceiling of a quotient: the least `r` with `a <= r * b` |
| Pages.RemapHeadFloor | src/page.py:118-127 | on a resize the new head is the line, at the new width, that holds the old head's first character: `head * old_width // new_width`, never negative, 0 for a head of 0 |
| Pages.ScrollUpHead | src/page.py:97-98 | scrolling up moves the head back one line, but never below zero |
| Pages.ScrollDownHead | src/page.py:101-102 | scrolling down moves the head on by at most one line, to the next line or to `len(viewport) - height`, and never past the latter |
| Pages.ScrollingKeepsBounds | src/page.py:97-102 | scrolling keeps a head that shows a full window within those bounds |
| Pages.ScrollDownCanGoNegative | src/page.py:101-102 | with fewer viewport lines than the window is high, scrolling down drives the head below zero |
| Pages.ScrollablePage.constructor | src/page.py:63-69 | the page starts with the lines of its text, unwrapped, the head at the top and no window size |
| Pages.ScrollablePage.UpdateViewportLines | src/page.py:105-112 | the viewport becomes the in-order wrap of every logical line, and nothing else changes |
| Pages.ScrollablePage.AddLine | src/page.py:75-77 | exactly one logical line is appended and the viewport grows by the wrap of that line |
| Pages.ScrollablePage.GetRenderable | src/page.py:79-95 | the render is the window at the head, joined with newlines |
| Pages.ScrollablePage.OnScrollUp | src/page.py:97-98 | the head becomes `max(0, head - 1)` and nothing else changes |
| Pages.ScrollablePage.OnScrollDown | src/page.py:101-102 | the head becomes `min(len(viewport) - height, head + 1)` and nothing else changes |
| Pages.ScrollablePage.OnScreenUpdate | src/page.py:115-129 | the output height is recorded; unchanged dimensions leave the head and viewport alone; new dimensions remap the head and rewrap |
| Pages.RewrappedKeepsText | src/page.py:105-112 | with the chunker as the wrapper, a rewrapped viewport holds exactly the text of the logical lines |
| Pages.AutoScrolledPage.constructor | src/page.py:132-134 | a new page follows the newest line |
| Pages.AutoScrolledPage.OnScrollUp | src/page.py:141-143 | scrolling up always stops following |
| Pages.AutoScrolledPage.OnScrollDown | src/page.py:136-139 | scrolling down resumes following exactly when it reaches the bottom, and otherwise keeps the flag |
| Pages.AutoScrolledPage.AddLine | src/page.py:145-148 | while following, adding a line pins the head to the bottom; otherwise the head stays |
| Pages.AutoScrolledPage.AddLines | src/page.py:192-193 | the lines are appended in order, with the head pinned to the bottom while following; adding no line leaves the viewport and the head as they were |
| Pages.FollowingShowsNewest | src/page.py:145-148 | a page that follows the newest line shows the newest full window |
| Pages.AuthorBodyBold | src/page.py:177-180 | the body of a message by anyone but the signed-in user is wrapped in `**`, which `strip_wrappers` removes again; the signed-in user's own body is left as it is |
| Pages.AuthorLabelShown | src/page.py:176-180 | the author label is the bare display name, enclosed in `**` for others and plain for the signed-in user, and its clean text and display width are the name's |
| Pages.FirstLineRaw | src/page.py:176-190 | the first line of a message is the clock, padding up to `PREFIX_LEN - 3` columns, the author label, the separator and the enclosed body |
| Pages.FirstLineWidth | src/page.py:176-190 | the first line of a message displays as wide as the prefix width, three separator columns and the enclosed body's display width: the label's bold markers take no column |
| Pages.FollowingShowsNewestLine | src/page.py:144-147 | a page pinned to the bottom with a positive height shows the newest viewport line as its last line |
| Pages.PrefixAll | src/page.py:185-190 | ValueError exactly when there is a piece and the prefix does not fit; otherwise one line per piece |
| Pages.PrefixAllAt | src/page.py:185-190 | line `k` is piece `k` behind its prefix, the clock and author on the first line only |
| Pages.PrefixPieces | src/page.py:185-190 | the loop raises the first failure or yields the prefixed pieces |
| Pages.Rendered | src/page.py:171-190 | ValueError exactly when the wrap width is not positive or a non-empty body's prefix does not fit; otherwise one line per wrapped piece |
| Pages.RenderedLinesAligned | src/page.py:184-190 | every line after the first carries blanks as wide as the first line's prefix; with the chunker as the wrapper, the pieces put together are the message content |
| Pages.ChannelChatPage.constructor | src/page.py:151-155 | a new channel page is not yet opened and follows the newest line |
| Pages.ChannelChatPage.OnFirstOpen | src/page.py:157-162 | after the call the page is opened, whether or not it already was |
| Pages.ChannelChatPage.ProcessMessage | src/page.py:164-193 | an unopened page or another channel's message changes nothing; otherwise the rendered lines are added in order with the height and dimensions kept (viewport and head too when nothing is rendered), or the error is raised before any line is added |
| Pages.PageManager.constructor | src/page.py:11-15 | no pages, no channel index and no focus |
| Pages.PageManager.SetFocus | src/page.py:17-21 | the focus becomes the page and nothing else changes |
| Pages.PageManager.AddPage | src/page.py:23-26 | the page is appended, a channel page is also indexed by its channel id, and every indexed page stays a managed page of its channel |
| Commands.Put | src/cmdlib/core.py:41-46 | assigning to a dict keeps an existing key in place and puts a new key last |
| Commands.PutLookup | src/cmdlib/core.py:41-46 | after `d[k] = v`, `k` maps to `v` and every other key is unchanged |
| Commands.Classify | src/cmdlib/core.py:38-53 | FlagError is the only error the argument reading raises |
| Commands.ClassifyRender | src/cmdlib/core.py:35-54 | reading loses nothing: `--name` is a boolean flag, `-name value` a value flag, anything else a positional argument, and the tokens spell out the arguments |
| Commands.RenderClassify | src/cmdlib/core.py:35-54 | well-formed tokens are read back as themselves |
| Commands.FlagsOfLast | src/cmdlib/core.py:40-46 | each flag maps to the value of its last occurrence, and only flags that occur are present |
| Commands.PositionalsAreSubsequence | src/cmdlib/core.py:51-54 | the positional arguments keep their input order: they are a subsequence of the arguments |
| Commands.ParseFlags | src/cmdlib/core.py:35-54 | FlagError exactly when a value flag is last or followed by something that starts with `-`; otherwise the flags of the tokens and the positionals in order |
| Commands.AliasError | src/cmdlib/core.py:76-80 | no alias is rejected exactly when none has a space and none is already in the table |
| Commands.RegistrationError | src/cmdlib/core.py:66-80 | a command is accepted exactly when its name has no space and is not registered and every alias is accepted; a space in the name is a CommandError and a registered name is CommandAlreadyRegistered |
| Commands.Assign | src/cmdlib/core.py:83-84 | entering the aliases adds them, each leading to the name, and keeps every other entry |
| Commands.WithAliases | src/cmdlib/core.py:82-85 | after registration every alias and the name itself resolve to the name, and every other entry is kept |
| Commands.NameTakesOverAlias | src/cmdlib/core.py:70-85 | a new name that is another command's alias is accepted and takes the alias over |
| Commands.DropAliasesOf | src/cmdlib/core.py:184-187 | exactly the alias entries that lead to the removed name are deleted |
| Commands.RegisterKeepsRegistry | src/cmdlib/core.py:82-85 | registering an accepted command keeps every alias leading to a registered command under its own name |
| Commands.UnregisterKeepsRegistry | src/cmdlib/core.py:178-187 | removing a command with every alias that leads to it keeps the registry consistent |
| Commands.Flag.constructor | src/cmdlib/core.py:290-296 | a flag starts out not passed |
| Commands.Command.constructor | src/cmdlib/core.py:127-141 | a command starts with no flags, no subcommands and empty alias tables |
| Commands.Command.AddSubcommand | src/cmdlib/core.py:156-176 | every check runs before any change: a rejected subcommand leaves both tables unchanged; an accepted one is registered and its name and aliases resolve to it |
| Commands.Command.RemoveSubcommand | src/cmdlib/core.py:178-187 | the subcommand and every alias that leads to it go; an unknown name changes nothing |
| Commands.RetrieveSubcommand | src/cmdlib/core.py:11-20 | the leading arguments that name a subcommand at each level are consumed, starting from the given command; KeyError exactly when the next argument is an alias whose name is not registered, otherwise the last command reached and the rest, which starts with no alias of it |
| Commands.Parser.constructor | src/cmdlib/core.py:7-9 | no commands and an empty alias table |
| Commands.Parser.AddCommand | src/cmdlib/core.py:66-86 | every check runs before any change: a rejected command leaves the registry unchanged; an accepted one is registered and its name and aliases resolve to it |
| Commands.Parser.RemoveCommand | src/cmdlib/core.py:88-98 | the registry never changes |
| Commands.Parser.Parse | src/cmdlib/core.py:22-33 | CommandNotFound exactly for an unknown name; otherwise the descent starts at the command the name resolves to, KeyError exactly on a dangling subcommand alias, FlagError exactly when the remaining arguments are malformed, and success otherwise with those arguments split into flags and positionals |
| Commands.AddFlag | src/cmdlib/core.py:343-363 | FlagError exactly when the name or an alias has a space, with nothing changed; otherwise a fresh unpassed flag is declared under the name, other flags are kept, and the name and aliases resolve to it |
| Commands.ResolveFlagsHas | src/cmdlib/core.py:229-232 | a flag is in the resolved dict exactly when some passed name stands for it |
| Commands.ResolveFlagsLast | src/cmdlib/core.py:229-232 | a flag holds the value passed last under any of its names |
| Commands.ResolvePassed | src/cmdlib/core.py:229-232 | the loop builds the resolved dict |
| Commands.FlagContext | src/cmdlib/core.py:239-254 | the context holds every declared flag and nothing else |
| Commands.FlagContextProperties | src/cmdlib/core.py:239-254 | with nothing passed the context is the defaults; a passed value wins over the default; an unpassed flag keeps its default |
| Commands.Defaults | src/cmdlib/core.py:239-241 | one default per declared flag |
| Commands.CheckDeclared | src/cmdlib/core.py:234-237 | the check passes exactly when every resolved flag is declared |
| Commands.DefaultFlags | src/cmdlib/core.py:239-241 | exactly the declared flags that were not passed get their defaults |
| Commands.MarkPassed | src/cmdlib/core.py:246-255 | every passed flag is put in the context and marked passed, and no other flag's mark changes |
| Commands.InvokeFlags | src/cmdlib/core.py:229-255 | FlagError exactly when an undeclared flag is passed; otherwise the context holds every declared flag with its passed value or default; passed flags are marked and marks are never cleared |

## Left out

- `src/main.py`, `src/client.py`, `src/state.py` and `src/modules/core.py`
  are not part of this model. They hold the curses loop, the Discord event
  handlers and glue code, all of which is I/O.
- `ChannelChatPage.send_history`, the coroutine `on_first_open` schedules, and
  `PageManager.process_message` are asynchronous and are left out.
- `render_text_line` draws through curses, and `get_clock_time`/`get_date`
  depend on the local time zone. The clock text reaches the model as a
  parameter.
- Reflection in the command framework is left out, because it inspects
  Python signatures:
  - `Command.params`, `Command.convert`, type conversion of flag values;
  - the binding of positional arguments from defaults and annotations in `invoke`;
  - `get_default_args`, `get_annotated_args` and `getattr`;
  - the decorator factories, `get_commands_from` and `load_module`.
- `remove_module` refers to the undefined name `commmand` and raises
  NameError on the first command of a module that has any; for a module
  without commands it does nothing. It is left out.
- `Command.get_subcommand` looks up `command`, which resolves to the
  module-level decorator `command` (src/cmdlib/core.py:338), not to its
  `name` argument. No key of `_subcommands` is that function, so it
  returns None for every name. It is left out. `get_command`, the `commands`/`subcommands` properties,
  `Modal.get` and `Modal.get_line` are plain lookups and are left out.
- `Text`'s forwarded `str` methods, `__mul__` and `__rmul__` (which
  concatenate rather than repeat) are left out. `Text` is modelled as its
  raw string.
- `Flag.type`, `Flag.description`, `Command.usage`, `help`, `module` and
  `parent` are not modelled.
- The `isinstance(aliases, (list, tuple))` checks of `add_command`,
  `add_subcommand` and `add_flag` are left out: aliases are always a
  sequence here.
- The `priority` attribute of `ModalLine` is not modelled. The source
  stores it but never reads it: the drop order is fixed.
- Wrapping.Wrap: a fixed-width chunker stands in for `textwrap.wrap`, which
  also breaks at spaces and drops whitespace (`textwrap.wrap("a b", 1)` is
  `["a", "b"]`).
- Wrapping.WrapKeepsText, Wrapping.WrapAllKeepsText and
  Pages.RewrappedKeepsText: that the pieces put back together are the text
  holds for the chunker only; `textwrap.wrap` drops whitespace, so the
  source's viewport keeps the words but not every space.
- Pages.RenderedLinesAligned: that the pieces put together are the content
  is a property of the chunker, as above; the alignment of later lines
  holds for any wrapping.
- Pages.Rendered: the chunker yields a line for a whitespace-only body (or
  ValueError when its prefix does not fit), where `textwrap.wrap` yields
  no piece and the source adds no line.
- Markup.WithPrefix: the first line's display width is stated only for the
  author labels `process_message` builds (Pages.FirstLineWidth). For an
  arbitrary author it does not hold: an author `a*` with a body `b*` is
  stripped to `a | b`, two columns short, because the dim pattern pairs
  the two stars across the separator.
- ModalLayout.Deadline: times are real numbers rather than floating point.
- ModalLayout.ModalLine.GetRenderable: requires a positive width and at
  most three fragments. With a width of zero or less the source loops
  forever. With more than three fragments it either loops forever or
  returns None.
- ModalLayout.ModalLine.constructor: the source pads the caller's list in
  place, so the caller sees the padding. The model builds a new sequence.
- ModalLayout.Modal.constructor: the source appends to the caller's list,
  which by default is a list shared by every Modal. The model builds a new
  sequence. It also requires the given lines to be distinct objects, which
  the source does not check; with a line given twice, a `set` on one index
  would show on the other too.
- ModalLayout.Modal.Set: requires `0 <= line < max_lines` and
  `0 <= idx < 3`. Python's negative indices, which the source accepts, are
  not modelled. The source writes the fragment first and indexes
  `_remove_on` after, so it changes the line and then raises IndexError
  in two cases: `max_lines <= line < len(lines)` (the given lines can
  outnumber `max_lines`), and `idx >= 3` on a line with more than three
  fragments. A `line` past the end of `lines` or an `idx` past the end of
  the line's fragments raises IndexError before anything changes. These
  error paths are not modelled.
- ModalLayout.Modal.SetLine: requires `0 <= line < max_lines`, a new
  line with at least three fragments, and that the new line object is not
  already at another index. For `max_lines <= line < len(lines)` the source
  replaces the line and then raises IndexError on `_remove_on[line]`; a
  `line` past the end of `lines` raises IndexError before anything
  changes; a shorter line is stored, and a later `set` or sweep on it can
  raise. The source allows the aliasing, and a later `set` would then
  change both lines. These cases are not modelled.
- Pages.ScrollablePage.UpdateViewportLines: requires a positive window
  width. `textwrap.wrap` raises ValueError for any other width, so
  `add_line` before the first screen update raises in the source; that
  error path is not modelled. The same holds for
  Pages.ScrollablePage.AddLine, Pages.AutoScrolledPage.AddLine and
  Pages.AutoScrolledPage.AddLines.
- Pages.ScrollablePage.OnScreenUpdate: requires a positive new width on a
  resize. For a width of 0 the source records the new dimensions and then
  raises ZeroDivisionError in `math.ceil`. For a negative width it records
  the dimensions and the remapped head, and then `textwrap.wrap` raises
  ValueError when there is at least one logical line (with none, the
  viewport just becomes empty). These error paths are not modelled.
- Pages.ScrollablePage.constructor: the source shares one list between
  `lines` and the initial viewport. The model copies it; the two are
  separated by the first rewrap anyway.
- Pages.RemapHeadFloor: stated only for a non-negative character offset.
  A head already driven below zero by scrolling down can map to a
  negative head.
- Pages.ChannelChatPage.ProcessMessage: requires a non-negative prefix
  width. `PREFIX_LEN` comes from the configuration module, which is not
  part of this model.
- Pages.PageManager.SetFocus: `teardown` is a no-op for every page type,
  so it is not modelled.
- Commands.Parser.Parse: requires the registry invariant that every
  `Parser` operation preserves. Without it the source fails on a `None`
  command. The descent path and the remaining arguments are ghost results.
- Commands.RetrieveSubcommand: the descent path and the remaining arguments
  are ghost results.
- Commands.InvokeFlags: the resolved flags and the context are maps, so the
  order in which `ctx.add_flag` is called is not modelled. It requires
  every declared flag to be stored under its own name, which `add_flag`
  ensures.
- Commands.MarkPassed: requires every declared flag to be stored under its
  own name, as for InvokeFlags.
- Commands.RegisterKeepsRegistry: requires that no alias of the new
  command is in the table, which the registration checks ensure.
