# jjx native core: configuration introspection and commit projection

jjx exposes a Jujutsu repository to Elixir through a native library. Nearly all of that
library forwards calls to `jj_lib` and `jj_cli`. Two pieces have logic of their own, and
this project models them and proves their properties:

- **Configuration introspection** (`configs.rs`). `resolve_configs` obtains the list of
  annotated configuration values from `resolved_config_values` over the whole configuration
  tree of the settings. It filters that list in place with two `Vec::retain` passes. The
  first pass drops every value that a later layer overrides. The second drops every value whose source layer is `Default`.
  `configs_to_tuple_list` turns each remaining value, in order, into a pair of its rendered
  name and its value printed with an empty decoration.
- **Commit projection** (`commit.rs`). `commit_to_erl_commit` builds the external `Commit`
  record. It narrows each shortest-unique-prefix length from `usize` to `u8`, and a length
  that does not fit becomes 0. It takes the first line of the description as `str::lines`
  yields it, or `""` when there is none. It copies the ids, the author's name and email,
  and the author timestamp unchanged.

Modules, one per file:

- `options.dfy` (`Options`): Rust's `Option` and `unwrap_or`.
- `ints.dfy` (`RustInts`): `u8`, `usize` and `i64` as bounded newtypes, `try_into` to `u8`,
  and the narrowing `try_into().unwrap_or(0)`.
- `lines.dfy` (`StrLines`): `str::lines` and the first line.
- `vec.dfy` (`Vectors`): the specification function `Filter`, the `Subsequence` relation and
  their lemmas. It also holds class `Vec`, an array buffer with a length. Its `Retain`
  method compacts the kept elements in place and is proved to leave `Filter` of the old
  contents.
- `configs.dfy` (`Configs`): annotated values, `ResolveConfigs` (a method that runs the two
  `Retain` passes on a `Vec`), its specification `ResolvedConfigs`, and `ConfigsToTupleList`.
- `commit.dfy` (`Commits`): the library-side inputs, the `Commit` record and
  `CommitToErlCommit`.

Two points about what the code does:

- The filter never compares a value with its default. It selects only on the source tag
  and the override flag (`configs.rs:8-9`), so a user-layer value equal to the built-in one
  is still reported. `Configs.UserValueEqualToDefaultIsReported` shows this on one list,
  and `Configs.ResolvedMembers` states the selection in general without mentioning values.
- `timestamp` is the author timestamp's inner integer, `jj_lib`'s `MillisSinceEpoch`,
  copied with no unit conversion (`commit.rs:40`). It counts milliseconds.

External inputs and uninterpreted operations:

- The list of annotated values comes from `resolved_config_values`, which is outside this
  model. `ResolveConfigs` takes it as a parameter.
- The rendering of a configuration name (`to_string`) is the parameter `nameText`. The
  printing of a value under a decoration (`decorated(prefix, suffix).to_string()`) is the
  parameter `valueText`. Both are left uninterpreted.
- The two shortest-unique-prefix lengths come from the repository's id indexes and are
  parameters of `CommitToErlCommit`. The change id and commit id are given as the text that
  their `to_string` produces.

## Model

| member | source | states |
|---|---|---|
| `Vectors.Filter` | native/jj_nif/src/configs.rs:8-9 | The elements that satisfy the retain test, in input order. The result is never longer than the input. |
| `Vectors.FilterKeepsOnly` | native/jj_nif/src/configs.rs:8-9 | Every element that survives a retain pass satisfies the pass's test. |
| `Vectors.FilterCounts` | native/jj_nif/src/configs.rs:8-9 | A retain pass keeps every occurrence of an element that passes the test and no occurrence of one that fails it. |
| `Vectors.FilterMembers` | native/jj_nif/src/configs.rs:8-9 | An element is retained if and only if it was present and passes the test. |
| `Vectors.FilterIsSubsequence` | native/jj_nif/src/configs.rs:8-9 | What a retain pass leaves is a subsequence of its input, so order is preserved. |
| `Vectors.SubsequenceLength` | native/jj_nif/src/configs.rs:8-9 | A subsequence is at most as long as the sequence it is taken from. |
| `Vectors.FilterFusion` | native/jj_nif/src/configs.rs:8-9 | Two successive retain passes equal one pass by the conjunction of their tests. |
| `Vectors.FilterCommutes` | native/jj_nif/src/configs.rs:8-9 | Two retain passes give the same list in either order. |
| `Vectors.FilterIdempotent` | native/jj_nif/src/configs.rs:8-9 | Repeating a retain pass with the same test changes nothing. |
| `Vectors.Vec.FromSeq` | native/jj_nif/src/configs.rs:6-7 | The vector of resolved values holds exactly the given list, in a fresh buffer. |
| `Vectors.Vec.Retain` | native/jj_nif/src/configs.rs:8-9 | In-place `retain`: the new contents are the old contents filtered by the test, and the buffer stays the same. |
| `Configs.ResolveConfigs` | native/jj_nif/src/configs.rs:5-11 | After the two in-place passes, the result is the specification `ResolvedConfigs`. It has no overridden value, no value from `Default`, and is a subsequence of the input. |
| `Configs.ResolvedIsReportedFilter` | native/jj_nif/src/configs.rs:8-9 | The two passes together keep exactly the values that are neither overridden nor from `Default`. |
| `Configs.ResolvedAreReported` | native/jj_nif/src/configs.rs:8-9 | No returned value is overridden, and none has source `Default`. |
| `Configs.ResolvedMembers` | native/jj_nif/src/configs.rs:6-10 | A value is returned if and only if it was in the input, is not overridden and is not from `Default`, so nothing else is dropped. |
| `Configs.ResolvedCounts` | native/jj_nif/src/configs.rs:6-10 | Each reported value occurs in the result as often as in the input. Every other value occurs zero times. |
| `Configs.ResolvedIsSubsequence` | native/jj_nif/src/configs.rs:8-9 | The result is an order-preserving subsequence of the input and no longer than it. |
| `Configs.RetainPassesCommute` | native/jj_nif/src/configs.rs:8-9 | Running the `Default` pass before the overridden pass gives the same list. |
| `Configs.ResolvedIdempotent` | native/jj_nif/src/configs.rs:8-9 | Filtering an already filtered list returns it unchanged. |
| `Configs.UserValueEqualToDefaultIsReported` | native/jj_nif/src/configs.rs:8-9 | On one concrete list: a user value equal to the built-in one is reported, and the overridden built-in value is not. The general selection rule, which never looks at values, is `Configs.ResolvedMembers`. |
| `Configs.ConfigsToTupleList` | native/jj_nif/src/configs.rs:13-23 | Length is preserved. The i-th pair is the i-th value's rendered name and its value printed with the empty decoration. |
| `Configs.TupleListAppend` | native/jj_nif/src/configs.rs:14-22 | The mapping commutes with concatenation, so it preserves order segment by segment. |
| `Configs.PairTextDependsOnlyOnValue` | native/jj_nif/src/configs.rs:19 | Two entries with equal values get equal text, whatever their names, sources, flags or positions. |
| `Options.Option.UnwrapOr` | native/jj_nif/src/commit.rs:21-22 | Returns the carried value when there is one, and the default otherwise. |
| `RustInts.TryIntoU8` | native/jj_nif/src/commit.rs:21 | The conversion to `u8` succeeds exactly when the length is below 256, and it keeps the value. |
| `RustInts.NarrowToU8` | native/jj_nif/src/commit.rs:19-22 | A length of at most 255 is stored as is, and any larger length is stored as 0. |
| `RustInts.NarrowedNonzeroIsExact` | native/jj_nif/src/commit.rs:24-28 | A nonzero narrowed length equals the library length. A narrowed length never exceeds it. |
| `StrLines.Next` | native/jj_nif/src/commit.rs:37 | `next` yields something exactly when there is a line, and then it yields the first line. |
| `StrLines.FirstLine` | native/jj_nif/src/commit.rs:37 | The first line of an empty text is empty. It is always a prefix of the text and never contains `\n`. |
| `StrLines.Lines` | native/jj_nif/src/commit.rs:37 | `str::lines`: it yields no line exactly for the empty text, so `unwrap_or("")` applies only there, and no line it yields contains `\n`. |
| `StrLines.FirstLineWithoutNewline` | native/jj_nif/src/commit.rs:37 | A text without `\n` is its own first line. This covers the case with no `\r` either. |
| `StrLines.FirstLineOfSplit` | native/jj_nif/src/commit.rs:37 | For `L + "\n" + rest` with `L` free of `\n`, the first line is `L` with one trailing `\r` removed if there is one. |
| `Commits.CommitToErlCommit` | native/jj_nif/src/commit.rs:17-42 | The ids, author name and email, and timestamp are copied unchanged. Each prefix length is kept when at most 255 and becomes 0 otherwise. The first line is an `\n`-free prefix of the description, and it is empty for an empty description. |
| `Commits.NonzeroShortLenIsExact` | native/jj_nif/src/commit.rs:19-28 | A nonzero stored prefix length equals the library's length, for both ids. |
| `Commits.ShortLensIndependent` | native/jj_nif/src/commit.rs:19-28 | Each stored length depends only on its own library length and on nothing else of the commit. |
| `Commits.SingleLineDescriptionShownWhole` | native/jj_nif/src/commit.rs:37 | A description without `\n` is shown whole. |
| `Commits.MultiLineDescriptionShowsFirst` | native/jj_nif/src/commit.rs:37 | A multi-line description shows its first line, without the `\r` of a `\r\n` ending. |

## Left out

- Workspace loading, store factories, head loading, the path converter and the revset alias table (`workspace.rs`): these are calls into `jj_lib` and `jj_cli` whose behaviour is not visible. The same holds for the `Mutex` handle and its lock poisoning.
- Layered settings resolution (`settings.rs`): the layering and its precedence are done by `jj_cli::config` and are not modelled. The model starts from the annotated list it produces.
- Revset parsing, symbol resolution, optimisation and evaluation (`revset.rs`): these are opaque library calls. Only their error-prefix strings are the file's own.
- The NIF entry points and the all-or-nothing `collect` of projected commits (`lib.rs`): this is glue over a library iterator and the binding boundary.
- The shortest-unique-prefix computation and the id indexes: they belong to `jj_lib` and enter the model as the two `usize` parameters.
- The rendering of ids, names and values: the hex rendering of ids, the quoting of configuration names and the printing of values are inputs or uninterpreted function parameters.
- Erlang term encoding of the record, the local-time date context of the revset parser, and file I/O.
- `ConfigSource`: the layers other than `Default` are listed by name only. None of them changes the filter's outcome.
- Memory reallocation of the vector: `Vec` is modelled as a fixed buffer plus a length, which is all that `retain` uses.
