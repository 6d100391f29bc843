# lxml build configuration, modelled in Dafny

This project models `setupinfo.py`, the build-configuration layer of lxml. That
layer decides how the two native extension modules `lxml.etree` and
`lxml.objectify` are compiled against libxml2/libxslt:

- **Include directories** (`include_dirs`). In a normal build these are the
  `-I` tokens printed by `xslt-config --cflags`, with the `-I` removed. In a
  static build (`--static`) they are the caller's static list.
- **Library directories** (`library_dirs`). These are the `-L` tokens of
  `xslt-config --libs`, with the `-L` removed, or the static list.
- **Compiler flags** (`cflags`). These are `-g2` under `--debug-gcc`,
  followed by every token of `xslt-config --cflags` that is not an `-I`
  token, or by the static flags.
- **Macros** (`define_macros`). This is `PYREX_WITHOUT_ASSERTIONS` (no value)
  under `--without-assert`, and nothing otherwise.
- **Switch consumption** (`has_option`). It removes the first `--name` from
  the argument list and says whether it was there.
- **Descriptors** (`ext_modules`). It builds one extension descriptor per
  entry of `EXT_MODULES`, in order.

With assertions enabled, a static build whose static list is empty fails the
script's `assert` with "Static build not configured, see doc/build.txt". The
model returns that as an `Err` result. Under `python -O` the script skips that
`assert`; see "## Left out".

Files:

- `token_filter.dfy` (module `TokenFilter`) holds the specification of the
  token filtering. `Selected` and `Unselected` give the filtered lists.
  `Indices` gives the positions of the tokens they keep. The lemmas prove that
  the filtering is exact, keeps order and partitions the input.
- `setupinfo.dfy` (module `SetupInfo`) holds the operations, written as loops
  that append to a result list, as the script's are. Each one is proved
  against the specification functions.
- `command_line.dfy` (module `CommandLine`) holds the argument list as a
  class, `Argv`, that `HasOption` updates in place. `RemoveFirst` is its
  specification.

How the script's inputs are represented:

- The module globals `OPTION_WITHOUT_ASSERT`, `OPTION_STATIC`,
  `OPTION_DEBUG_GCC` and `OPTION_AUTO_RPATH` become one `Options` value.
- `PYREX_INSTALLED` becomes the parameter `pyrexInstalled`.
- The subprocess call `flags(cmd)` becomes the token sequence it returns.
  `cflagsOutput` stands for `xslt-config --cflags`; `include_dirs` and
  `cflags` both read it. `libsOutput` stands for `xslt-config --libs`;
  `library_dirs` reads it.

## Model

| member | source | states |
|---|---|---|
| `TokenFilter.IndicesExact` | setupinfo.py:58-93 | the kept positions are exactly the tokens that pass the prefix test, each once, in strictly increasing order |
| `TokenFilter.SelectedAt` | setupinfo.py:58-76 | the k-th directory comes from the k-th token with the prefix, and that token is the prefix followed by the directory (only the prefix is removed) |
| `TokenFilter.UnselectedAt` | setupinfo.py:88-92 | the k-th kept flag is, unchanged, the k-th token without the `-I` prefix |
| `TokenFilter.Partition` | setupinfo.py:70-92 | every token goes to exactly one of the two lists, so their lengths add up to the number of tokens |
| `TokenFilter.SelectedConcat` | setupinfo.py:58-93 | filtering a concatenation gives the concatenation of the filtered parts (the output order follows the input order) |
| `TokenFilter.SelectedMembers` | setupinfo.py:58-76 | a directory is listed if and only if some token is the prefix followed by that directory |
| `TokenFilter.UnselectedMembers` | setupinfo.py:88-92 | a flag is listed if and only if it is a token that does not start with `-I` |
| `SetupInfo.IncludeDirs` | setupinfo.py:66-76 | static build: the static list, or the assertion error when it is empty; otherwise the `-I` tokens of the cflags output with the prefix removed |
| `SetupInfo.LibraryDirs` | setupinfo.py:54-64 | static build: the static list, or the assertion error when it is empty; otherwise the `-L` tokens of the libs output with the prefix removed |
| `SetupInfo.Cflags` | setupinfo.py:78-93 | a leading `-g2` added exactly when debug-gcc is set, then the static flags (an error when they are empty) or the non-`-I` tokens of the cflags output |
| `SetupInfo.DefineMacros` | setupinfo.py:95-98 | at most one macro; there is one if and only if without-assert is set, and it is `PYREX_WITHOUT_ASSERTIONS` with no value |
| `SetupInfo.ExtModulesFor` | setupinfo.py:15-46 | an error exactly when a static build lacks a static list; otherwise one descriptor per `EXT_MODULES` entry in order, named after its package, with source `src/lxml/<module>.pyx` under Pyrex and `.c` otherwise, compile args `-w` plus the cflags, the shared include, library and macro lists, runtime library dirs equal to the library dirs under auto-rpath and empty otherwise, and libraries xslt, exslt, xml2, z, m |
| `SetupInfo.CflagsPartitionTokens` | setupinfo.py:66-93 | in a non-static build, the include dirs and the compiler flags without the debug flag together have exactly as many entries as the cflags output has tokens, and each token goes to exactly one of them: the k-th include dir is the k-th `-I` token without its prefix, and the k-th flag after `-g2` is the k-th other token, unchanged |
| `CommandLine.RemoveFirstAt` | setupinfo.py:104-109 | when the first `--name` is at position i, removing it leaves the elements before i and after i, in order |
| `CommandLine.RemoveFirstAbsent` | setupinfo.py:104-109 | when `--name` is absent, the argument list is unchanged |
| `CommandLine.RemoveFirstCount` | setupinfo.py:104-109 | exactly one copy of `--name` goes when it occurs and none otherwise; the length drops by one or stays the same |
| `CommandLine.Argv.HasOption` | setupinfo.py:104-109 | returns true if and only if `--name` was among the arguments; the new argument list is the old one without its first `--name` |

The property "cflags starts with `-g2` if and only if debug-gcc is set" does
not hold literally. Without debug-gcc, the config tool may itself print `-g2`
as its first non-`-I` token. `Cflags` therefore states the exact shape
instead: the debug prefix, then the rest.

## Left out

- `flags` (setupinfo.py:100-102) runs a subprocess and splits its output on
  whitespace. The model takes its tokens as input. The script runs
  `xslt-config --cflags` twice, once for `include_dirs` and once for
  `cflags`; the model assumes both runs print the same tokens.
- The Pyrex import probe (setupinfo.py:4-8) detects a library. It is the
  boolean `pyrexInstalled`.
- `extra_setup_args` (setupinfo.py:48-52) returns a class from a library
  outside the script, so it is not modelled.
- The setuptools `Extension` class is foreign code. It is the record
  `SetupInfo.Extension`, holding the fields the script sets.
- The evaluation of the four `OPTION_*` globals against the real `sys.argv`
  (setupinfo.py:112-115) is global process state. The model takes the
  options as an `Options` value. `Argv.HasOption` models the consumption
  of one switch.
- The notice that `ext_modules` prints without Pyrex (setupinfo.py:19-20) is
  console output.
- Python lets a caller pass any truthy value as a static list. The model
  takes sequences of strings, and "empty" means falsy.
- The XML/XSLT library and its bindings are not part of this model.
- SetupInfo.IncludeDirs, SetupInfo.LibraryDirs, SetupInfo.Cflags and
  SetupInfo.ExtModulesFor follow the script with assertions enabled. Under
  `python -O` the `assert` statements (setupinfo.py:56, 68, 84) are skipped.
  A static build with an empty static list then goes on without failing:
  `include_dirs` and `library_dirs` return that empty list, and `cflags`
  returns only the optional `-g2`. The model always gives
  `Err(StaticNotConfigured)` in that case.
- SetupInfo.ExtModulesFor gives each descriptor equal list values where the
  script shares one list object. The script puts the same `_include_dirs`,
  `_library_dirs` and `_define_macros` lists into every `Extension`
  (setupinfo.py:40-42). Under auto-rpath, `runtime_library_dirs` is the
  very object `_library_dirs` (setupinfo.py:29). In a static build, the
  lists are the caller's own objects (setupinfo.py:57, 69). The model keeps
  the equalities but not this aliasing, so a later in-place change to one
  list is not reflected in the others.
