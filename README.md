# synodocker_to_compose, modelled in Dafny

The tool reads a NAS vendor's per-container JSON descriptors (`*.syno.json`, one
container each) from a directory. It turns each descriptor into one service of a
compose document and writes all of them, keyed by service name, to
`docker-compose.yml` in an output directory.

This project models that mapping and the driver's decisions around it:

- `syno_container.dfy` (module `SynoContainer`): the descriptor records. A config has
  exactly a name, an image and four ordered lists. A link carries only its container
  name, because the alias field is commented out in the source. Ports are 32-bit signed
  integers (`Ints.Int32`, in `ints.dfy`). Volume bindings and environment variables
  hold only strings.
- `docker.dfy` (module `Docker`): the compose records. The source's
  `BTreeMap<String, DockerService>` becomes a `map`, so there is at most one service per
  name. The map's ascending-key traversal order becomes the ghost view
  `ServiceNamesInOrder`.
- `string_order.dfy` (module `StringOrder`): Rust's ordering of `String` as `LexLe`. The
  source compares UTF-8 bytes, which gives the same order as comparing Unicode scalar
  values. The module proves that order total, and builds the sorted key list of a set.
- `to_docker.dfy` (module `ToDocker`): the conversions, one function per record type. The
  source's `ToDocker` trait impls become `LinkToDocker`, `PortToDocker`,
  `VolumeToDocker`, `EnvToDocker` and `ConfigToDocker`. The `Vec<T>` impl becomes
  `MapSeq`. Collecting into the `BTreeMap` becomes the fold `CollectServices`, where the
  last write wins. Wrapping the map with version `"3.9"` becomes `ServicesToCompose`, and
  the iterator impl becomes `IterToCompose`.
- `to_docker_inverse.dfy` (module `ToDockerInverse`): reading the converted values back.
  This is not part of the source. It is the partner that shows what the conversion
  keeps and what it loses. Links and ports come back unchanged. A volume string or an
  environment string comes back only when its fields do not contain the separator,
  because nothing is escaped.
- `main.dfy` (module `App`): the suffix test `is_syno_docker_json_file`, the selection of
  directory entries, the not-a-directory and nothing-found errors, and the output path.
  The run itself is the method `Run`.
- `scenarios.dfy` (module `Scenarios`): a worked single-service document, and the case of
  two descriptors with the same name.

The volume string is `mount_point:host_volume_file:type` because that is how the source
writes it (src/to_docker.rs:48). The model keeps this order.

The field names follow the Rust structs (`host_volume_file`, `port_type`,
`link_container`), spelled in camelCase. A service name may be empty, because nothing in
the code checks it. A parse failure or a failed file creation is an `unwrap()` panic in
the code (see "Left out").

## Model

| member | source | states |
|---|---|---|
| `Docker.ServiceNamesInOrder` | src/docker.rs:1-8 | the services are traversed in strictly ascending name order, each service name exactly once |
| `Docker.ServiceOrderIsCanonical` | src/docker.rs:7 | any strictly ascending list of exactly the service names is that traversal order, so the order depends only on which names are present |
| `StringOrder.SortedKeys` | src/docker.rs:7 | a `BTreeMap`'s key listing is strictly sorted, holds every key and nothing else, and has one entry per key |
| `StringOrder.StrictlySortedUnique` | src/docker.rs:7 | two strictly sorted lists with the same elements are equal |
| `StringOrder.LexLeTotal` | src/docker.rs:7 | any two strings are ordered one way or the other |
| `StringOrder.LexLeAntisymmetric` | src/docker.rs:7 | two strings ordered both ways are equal |
| `StringOrder.LexLeTransitive` | src/docker.rs:7 | the string order is transitive |
| `StringOrder.MinimumExists` | src/docker.rs:7 | every non-empty set of names has a least name |
| `ToDocker.MapSeq` | src/to_docker.rs:59-64 | converting a list keeps its length, and element i of the output is the conversion of element i of the input |
| `ToDocker.MapSeqAppend` | src/to_docker.rs:59-64 | converting a concatenation converts each part and concatenates the results |
| `ToDocker.ConfigToDockerSpec` | src/to_docker.rs:12-24 | the key is the config's name unchanged; the service's image is the config's image; dependsOn, ports, volumes and environment have the lengths of links, port bindings, volume bindings and env variables, and element i of each is the conversion of element i |
| `ToDocker.VolumeLayout` | src/to_docker.rs:45-50 | the volume string is mount point, `:`, host volume file, `:`, type, each at its own offset, with exactly two separators added, also when fields are empty |
| `ToDocker.EnvLayout` | src/to_docker.rs:52-57 | the environment string is the key, one `=`, then the value |
| `ToDocker.CollectedKeys` | src/to_docker.rs:66-73 | the collected map's keys are exactly the names in the input |
| `ToDocker.CollectedValues` | src/to_docker.rs:66-73 | each name in the input is a key of the collected map and holds the service of its last occurrence |
| `ToDocker.ComposeSpec` | src/to_docker.rs:66-84 | the document's version is `"3.9"`; its service names are exactly the descriptors' names; each name holds the conversion of the last descriptor with that name |
| `ToDocker.ComposeOfNothing` | src/to_docker.rs:76-84 | no descriptors give version `"3.9"` and an empty services map |
| `ToDocker.ComposeAppend` | src/to_docker.rs:66-73 | one more descriptor puts its service under its name, replacing an earlier one, and leaves every other name unchanged |
| `ToDocker.ComposeIgnoresScanOrder` | src/to_docker.rs:66-73 | when every name is distinct, any reordering of the descriptors gives the same document |
| `ToDocker.ComposeServiceOrder` | src/to_docker.rs:66-73 | the document's services are traversed in ascending order of the descriptors' names, whatever the scan order |
| `ToDockerInverse.LinkRoundTrip` | src/to_docker.rs:26-31 | a link converts to exactly its container name, which converts back to the link |
| `ToDockerInverse.PortRoundTrip` | src/to_docker.rs:33-43 | target, published and protocol are container port, host port and type, copied without loss; the mode is `"host"` |
| `ToDockerInverse.PortImage` | src/to_docker.rs:33-43 | a port comes out of the conversion if and only if its mode is `"host"`, whatever the input |
| `ToDockerInverse.VolumeRoundTrip` | src/to_docker.rs:45-50 | a volume string reads back as its binding when no field contains a colon |
| `ToDockerInverse.VolumeParseSound` | src/to_docker.rs:45-50 | whatever reads as a binding is exactly that binding's volume string, with colon-free fields |
| `ToDockerInverse.VolumeColonsNotEscaped` | src/to_docker.rs:45-50 | colons are not escaped: two different bindings give the same volume string |
| `ToDockerInverse.EnvRoundTrip` | src/to_docker.rs:52-57 | an environment string reads back as its variable when the key contains no `=` |
| `ToDockerInverse.EnvParseSound` | src/to_docker.rs:52-57 | whatever reads as a variable is exactly that variable's string, with an `=`-free key |
| `ToDockerInverse.EnvEqualsNotEscaped` | src/to_docker.rs:52-57 | `=` is not escaped: two different variables give the same string |
| `ToDockerInverse.ConfigRoundTrip` | src/to_docker.rs:12-24 | a descriptor whose formatted fields are separator-free is recovered from its (name, service) pair, so every plain copy is lossless |
| `App.EndsWithConcat` | src/main.rs:20 | a name ends with a suffix if and only if it is some stem followed by that suffix |
| `App.IsSynoDockerJsonFileSpec` | src/main.rs:12-21 | an entry is a descriptor file if and only if it has a file name and that name is a stem followed by the literal `.syno.json`; a missing name counts as `""` and never matches |
| `App.SuffixIsLiteral` | src/main.rs:12-21 | the test is case-sensitive and needs the suffix at the very end; an entry without a name is rejected |
| `App.SelectSynoFilesSpec` | src/main.rs:36-39 | the selection holds exactly the listed entries that pass the suffix test, and is no longer than the listing |
| `App.SelectAppend` | src/main.rs:36-39 | selection keeps listing order: selecting from a concatenation concatenates the selections |
| `App.SelectOne` | src/main.rs:38 | a single entry is kept exactly when it passes the suffix test |
| `App.OutputPathSpec` | src/main.rs:59-60 | the output path is the output directory followed by `docker-compose.yml` as a whole final path component; a `/` is added exactly when the directory is non-empty and does not already end in `/`; that name never passes the suffix test |
| `App.Run` | src/main.rs:31-60 | a non-directory input fails with NotADirectory before any selection; a listing with no descriptor file fails with a NotFound-kind error and produces no document; otherwise the result is the document built from the selected entries, loaded in listing order, to be written at the output path |
| `Scenarios.WebServerDocument` | src/to_docker.rs:12-84 | the single-service `web` example gives exactly the expected version, image, ports, volumes and environment |
| `Scenarios.LaterDescriptorWins` | src/to_docker.rs:66-73 | of two descriptors named `db`, the document holds only `db`, and its whole service (image, dependsOn, ports, volumes, environment) is the conversion of the one scanned last |

## Left out

- Directory enumeration, opening and reading files, and creating the output file
  (src/main.rs:36, 51, 63-64) are operating-system I/O. The listing is an input
  `seq<DirEntry>`, and the directory test is an input `bool`.
- Parsing JSON with `serde_json` (src/main.rs:53), including the `type` field renames,
  belongs to a foreign library. The parsed descriptor of each entry is the input
  function `load`.
- Writing YAML with `serde_yaml` (src/main.rs:66-67) also belongs to a foreign library.
  From it the model keeps only the ascending order of the service names
  (`ServiceNamesInOrder`). The write error, mapped to an `Other` error, is not modelled.
- Panics from `unwrap()` are not modelled: a failed directory read, a failed entry, a
  failed open or parse, or a failed file creation. `load` is total, so the model has no
  parse-failure path.
- The `println!` output is not modelled: the progress messages, the list of matched
  files (src/main.rs:45-48 is a logging loop only), and the "unable to determine
  filename" message. Error message texts are also not modelled; each error is a
  `RunError` value carrying the input path, with its `ErrorKind`.
- Command-line argument handling (src/main.rs:24-27) is process plumbing.
- `Path::file_name` and `to_str` are not modelled as path parsing. Their combined result
  is the entry's `fileName: Option<string>`.
- `JoinPath` models `Path::join` on Unix only. Windows prefixes are not modelled.
- The trait and associated-type machinery, and the iterator clone (src/to_docker.rs:6-10,
  66-70), are Rust mechanics. They are replaced by plain functions.
- `ComposeIgnoresScanOrder`: stated only for descriptors with pairwise distinct names.
  With repeated names, the source defines the result by scan order (last write wins), so
  the order does matter.
