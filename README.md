# hmc configuration: a verified model

hmc keeps its database settings in `hmc.ini`, a file beside the running
executable. The `Config` component holds those settings (`db_type`,
`db_path`) and a one-shot guard `is_init`. Its `default` factory picks SQLite
with the database file `hmc.db` beside the executable. Its `init` operation
does the create-or-load decision:

- a call after a successful create is refused with `AlreadyInit`;
- when `hmc.ini` is absent, a `Database` section built from the current
  fields is written, and the instance becomes initialised;
- when `hmc.ini` is present, it is loaded (read and parsed) and its contents are dropped; any load failure is an `IniError`.

This project models that component in Dafny and proves its transition
relation.

- `paths.dfy`, module `Paths`: `get_path`. A path is a root flag and a
  sequence of components, like `PathBuf`. `GetPath` pops the last component of
  the executable's path, pushes the file name and renders the text. It is
  proved equal to `Resolve`, the "file in the executable's directory"
  specification. `ResolveLocation` shows the result is the directory's text, a
  separator where one is needed, and the file name.
- `ini.dfy`, module `Ini`: the INI document as a map from section name to a
  map from key to value. It covers `Ini::new` and `with_section(..).set(..)`,
  and the document that `init` writes.
- `configuration.dfy`, module `Configuration`: the `Error` taxonomy, the
  `Config` class with its `Default` constructor and its `Init` method, and
  `InitStep`, the pure transition that `Init` is proved against.
  - The environment is a parameter `Env`. It carries the executable's path,
    whether `hmc.ini` exists, whether the write succeeds, and whether the
    load (reading and parsing together) succeeds.
  - `Init` returns the requests it makes (existence check, write, load) as a
    trace of `Effect`s. This makes "no filesystem access once initialised"
    and "the file written is the file checked" statable.
  - `Run` chains calls on one instance. `CreateIsOneShot` proves that at most
    one call creates the file, and that every later call is refused.

The inline path computation in `init` (lines 62-68) repeats `get_path` by
hand instead of calling it. `Init` models it inline as written. Its contract
proves that it yields the same path as the existence check.

On the load path, the source neither copies the parsed values into the
fields nor sets `is_init`, so `Ok(false)` is returned and another call will
run the decision again. The model keeps that behaviour.

Where executable-path resolution fails, the source aborts the process through
`unwrap`. A propagated error would be the cleaner design, but the model
follows the code and leaves those aborts out (see below).

## Model

| member | source | states |
|---|---|---|
| `Paths.GetPath` | src/configuration.rs:26-32 | popping the executable's path once and pushing the file gives the text of `Resolve`: the file inside the directory containing the executable (an absolute file replaces it), deterministically for a fixed executable path |
| `Paths.JoinConcat` | src/configuration.rs:30-31 | joining two non-empty runs of components puts exactly one separator between their texts |
| `Paths.ResolveLocation` | src/configuration.rs:26-32 | a resolved relative file's text is the text of the executable's directory, then a separator unless that directory is the root or empty, then the file's own text |
| `Paths.ResolveInjective` | src/configuration.rs:26-32 | two file names resolve to the same text if and only if they are the same name |
| `Ini.Empty` | src/configuration.rs:57 | a new document has no sections |
| `Ini.Set` | src/configuration.rs:58-60 | setting a key creates the section if needed, gives the key its value and leaves every other section and key as it was |
| `Ini.DatabaseDocument` | src/configuration.rs:57-60 | the default document has exactly one section `Database`, with exactly the keys `db_type` and `db_path` holding the given values |
| `Configuration.ConfAndDbPathsDiffer` | src/configuration.rs:6-7 | `get_path("hmc.ini")` and `get_path("hmc.db")` are different paths for every executable path |
| `Configuration.InitStep` | src/configuration.rs:46-88 | `AlreadyInit` exactly when already initialised, and then no request is made and nothing changes. `Ok(true)` exactly on absent file with a successful write. `IoError` exactly on absent file with a failed write. `Ok(false)` exactly on present file with a successful load (read and parse). `IniError` exactly on present file with a failed load, whether reading or parsing failed. `db_type`/`db_path` never change. `is_init` changes only from false to true, and only with `Ok(true)`. A returned bool equals the new `is_init`. Otherwise one existence check of `get_path("hmc.ini")` is followed by a write of the `Database` document built from the pre-call fields, or a load, of that same path |
| `Configuration.Run` | src/configuration.rs:46-88 | successive calls on one instance give one step per call |
| `Configuration.RefusedOnceInit` | src/configuration.rs:48-51 | on an initialised instance every call returns `AlreadyInit`, makes no request and leaves the fields unchanged |
| `Configuration.CreateIsOneShot` | src/configuration.rs:46-88 | over any sequence of calls at most one creates the file (none once initialised), every call after a create is refused without a request, and `db_type`/`db_path` keep their values throughout |
| `Configuration.Config.Default` | src/configuration.rs:35-43 | a new instance has `db_type == "sqlite3"`, `db_path == get_path("hmc.db")` and `is_init == false` |
| `Configuration.Config.Init` | src/configuration.rs:46-88 | may change only `is_init`. Result, new fields and requests are those of `InitStep` on the old fields. The inline path of lines 62-68 equals the checked `get_path("hmc.ini")` |

## Left out

- `env::current_exe()` is not called: the executable's path is a parameter. Its `unwrap`, and the `unwrap` on converting the path to a string (lines 28, 31, 64, 67), abort the process on failure. That is host behaviour and is not modelled.
- Paths are given already split into components, each non-empty and free of `/` by its type. Parsing path text, `.` and `..` components, non-UTF-8 names and the trailing separator that `PathBuf::push` leaves for an empty argument are not modelled. The source only pushes the constant names `hmc.ini` and `hmc.db`.
- `Path::exists`, `write_to_file` and `load_from_file` (lines 54, 62, 79) are not executed. Their answers are the booleans of `Env`, and the calls are recorded as `Effect`s. The INI text format, its serialiser and its parser belong to the INI library and are not modelled. The parsed document is discarded by the source, so the model records only that a load happened.
- The INI library's unnamed general section, which stays empty, is not part of the document map.
- Path text uses Unix syntax only: the separator `/` and a single root. Windows separators, drive and UNC prefixes are not modelled.
- `init` reads `current_exe()` three times (lines 54, 64, 79); the model takes one executable path per call for all three. That the written path is the checked path is proved under this assumption.
- The payloads of `ini::Error` and `std::io::Error` are dropped. Only the error variant is modelled.
- Races between instances or processes on the same file are not modelled. The guard is per instance, and calls on one instance are sequential.
