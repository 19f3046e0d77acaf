# snakeoil core, modelled in Dafny

This project models five pieces of the snakeoil Python utility library and
proves properties of the model.

* **data sources** (`snakeoil/data_source.py`): in-memory `data_source`
  objects holding `str` or `bytes`, with `text_data_source` and
  `bytes_data_source` as type-checked variants; handles ("file objects")
  over them; writable handles that commit their whole buffer back into the
  source on `close`; the mutability gate and open modes of `local_source`;
  and `transfer_data`, which copies a reader's remaining content into a
  writer chunk by chunk. Text/bytes conversion is Python 3's default
  `str.encode()` / `bytes.decode()`, which is strict UTF-8 (RFC 3629). It is
  modelled concretely in `utf8.dfy`, and both round trips are proved.
* **immutable instances** (`src/snakeoil/klass/immutable.py`):
  * the context variable naming the one object currently allowed to mutate,
    with `__allow_mutation__` blocks that set it and restore it;
  * the `Simple` set/delete gates;
  * `__init_subclass__`, which wraps `__init__`, `__setstate__` and
    `__del__` in mutation blocks unless they are marked;
  * `Strict`, which always refuses.
* **generic class helpers** (`src/snakeoil/_klass.py`):
  * mapping `contains` and `get`;
  * attribute-list equality and inequality;
  * the compute-once attribute descriptor `_raw_internal_jit_attr`.
* **deprecated class helpers** (`src/snakeoil/klass/deprecated.py`):
  * `setdefault`-style injection of `__setattr__`/`__delattr__` and of the
    six rich comparisons;
  * the comparisons derived from the sign of `__cmp__`;
  * `ImmutableInstance` and its pickling state;
  * `steal_docs`.
* **test-case runner** (`snakeoil/test/__init__.py`):
  * `Todo.parse` and `Todo.expected`;
  * `_tryResultCall`;
  * the outcome rules of `TestCase.run`, with the result object modelled as
    the log of callbacks made on it.

Things the source updates in place are classes with `modifies` clauses:

| class | models |
|---|---|
| `Stream` | a handle |
| `DataSource` | an in-memory source |
| `MutationGate` | the context variable |
| `SimpleObject`, `StrictObject`, `ImmutableObj` | an instance |
| `PyClass` | a class namespace after creation |
| `Namespace` | a class body's scope |
| `JitAttr` | the descriptor |
| `TestResult` | a test result |

Python object identity (`is`, `id()`) is Dafny reference identity. Each
stateful method is tied to a pure function of the old state, and the
promised properties are lemmas about those functions. The `*_scenarios.dfy`
files restate the repository's own tests
(`snakeoil/test/test_data_source.py` and `tests/klass/test_immutable.py`)
as verified methods over the model.

## Model

| member | source | states |
|---|---|---|
| Utf8.EncodeChar | snakeoil/data_source.py:263 | a character encodes to 1, 2, 3 or 4 bytes according to its code point range |
| Utf8.Encode | snakeoil/data_source.py:263 | `str.encode()` gives at least one byte per character |
| Utf8.DecodeFirst | snakeoil/data_source.py:266 | a well-formed leading sequence decodes to one character and consumes between 1 and all of the bytes |
| Utf8.Decode | snakeoil/data_source.py:266 | `bytes.decode()` never yields more characters than bytes; failure stands for UnicodeDecodeError |
| Utf8.DecodeFirstOfEncodeChar | snakeoil/data_source.py:263-266 | decoding a character's encoding, whatever follows it, gives that character and consumes exactly its bytes |
| Utf8.DecodeFirstIsEncodeChar | snakeoil/data_source.py:263-266 | whatever DecodeFirst accepts is exactly the encoding of the character it returns |
| Utf8.DecodeEncode | snakeoil/data_source.py:263-266 | decoding the encoding of any text succeeds and gives the text back |
| Utf8.DecodeCons | snakeoil/data_source.py:284-286 | a successful decode is the first decoded character followed by the decode of the remaining bytes |
| Utf8.EncodeAfter | snakeoil/data_source.py:284-286 | a character whose encoding is a prefix of some bytes, followed by a text encoding to the rest, encodes to those bytes |
| Utf8.EncodeDecode | snakeoil/data_source.py:284-286 | bytes that decode re-encode to exactly the same bytes |
| Utf8.InvalidByteRefused | snakeoil/data_source.py:266 | decoding is strict: a leading 0xFF byte makes the whole decode fail |
| DataSource.Payload.Slice | snakeoil/data_source.py:355 | a read chunk has the content's kind and the requested length |
| DataSource.Payload.Append | snakeoil/data_source.py:355-358 | joining chunks of one kind adds their lengths |
| DataSource.Payload.Overwrite | snakeoil/data_source.py:276-277 | writing into a handle's buffer keeps its kind |
| DataSource.OverwriteSeq | snakeoil/test/test_data_source.py:29-37 | after a write at `pos` the buffer's length is the larger of its old length and `pos` plus the written length |
| DataSource.OverwriteSeqAt | snakeoil/test/test_data_source.py:29-37 | after a write at `pos` the buffer holds the written items there, the old content elsewhere, and fill in any gap |
| DataSource.OverwriteSeqConcat | snakeoil/data_source.py:355-358 | two consecutive writes equal one write of their concatenation |
| DataSource.OverwriteStep | snakeoil/data_source.py:356-358 | writing the next slice of the reader's content after the slices already copied gives the writer's starting content overwritten once with everything copied so far |
| DataSource.OverwriteConcat | snakeoil/data_source.py:355-358 | the same for text and bytes buffers |
| DataSource.SliceAppend | snakeoil/data_source.py:355-358 | consecutive reads concatenate to one read of the whole span |
| DataSource.Convert | snakeoil/data_source.py:259-266 | `_convert_data` keeps content already of the requested kind, encodes text to bytes, and decodes bytes to text, failing with UnicodeDecodeError exactly when the bytes are not UTF-8 |
| DataSource.ConvertRoundTrip | snakeoil/data_source.py:259-287 | converting to a kind and back to the stored kind gives the original content |
| DataSource.TextAlwaysConverts | snakeoil/data_source.py:263 | text content converts to either kind without error |
| DataSource.Stream.ChunkEnd | snakeoil/data_source.py:355 | a read stops between the start and the end of the buffer; a negative size reads to the end |
| DataSource.Stream.Remaining | snakeoil/data_source.py:351-354 | what is left unread has the stream's kind |
| DataSource.Stream.ReadOnly | snakeoil/data_source.py:101-120 | a read-only handle starts at 0 over the data, is not writable, and declares MemoryError and TypeError |
| DataSource.Stream.Writable | snakeoil/test/test_data_source.py:105-109 | a plain writable buffer starts at 0 over the data and has no callback |
| DataSource.Stream.Committing | snakeoil/data_source.py:71-84 | a committing handle starts at 0 over the data, holds its callback, and declares MemoryError |
| DataSource.Stream.NewCommitting | snakeoil/data_source.py:75-84 | a callback that is not callable is refused with TypeError; otherwise the handle holds it and the data |
| DataSource.Stream.Read | snakeoil/data_source.py:355-358 | a read on an open stream returns the content from the position up to size (or to the end) and advances; a closed stream raises ValueError and does not move |
| DataSource.Stream.Write | snakeoil/test/test_data_source.py:26-27 | a read-only handle refuses writes with TypeError, one of its declared exceptions; a closed writable stream raises ValueError; content of the other kind raises TypeError; a refused write changes nothing; otherwise it overwrites at the position and advances past the written content |
| DataSource.Stream.Seek | snakeoil/data_source.py:89 | seek succeeds exactly on an open stream with a non-negative offset, and then sets the position to it |
| DataSource.Stream.Tell | snakeoil/test/test_data_source.py:87-91 | tell gives the position, or ValueError when closed |
| DataSource.Stream.Close | snakeoil/data_source.py:86-92 | closing a committing handle rewinds, reads everything and commits it through the callback, then clears the callback, so only the first close commits; a plain stream just closes; a second close changes nothing, raising ValueError from the committing handle's `flush()` and succeeding on any other handle; a commit that fails to decode leaves source, callback and open state as they were |
| DataSource.DataSource.constructor | snakeoil/data_source.py:249-256 | a source holds the given data and mutability |
| DataSource.DataSource.Specialised | snakeoil/data_source.py:318-343 | a `text_data_source` or `bytes_data_source` holds the given data and mutability, and its kind is the one its constructor checked |
| DataSource.DataSource.NewText | snakeoil/data_source.py:318-321 | `text_data_source` raises TypeError exactly when the data is not str |
| DataSource.DataSource.NewBytes | snakeoil/data_source.py:340-343 | `bytes_data_source` raises TypeError exactly when the data is not bytes |
| DataSource.DataSource.ConvertData | snakeoil/data_source.py:323-348 | the conversion overrides of `text_data_source` and `bytes_data_source` agree with the generic conversion on the data they accept |
| DataSource.DataSource.ResetData | snakeoil/data_source.py:281-287 | a commit stores the content converted to the kind the source already holds, keeps that kind, and fails (leaving data unchanged) exactly when the conversion fails |
| DataSource.DataSource.Fileobj | snakeoil/data_source.py:272-299 | a writable request on an immutable source raises TypeError before any handle exists; a failed conversion raises UnicodeDecodeError; otherwise the handle starts at 0 over the data converted to the requested kind, writable handles commit to this source, and its exceptions are as declared; the source is not changed |
| DataSource.DataSource.TextFileobj | snakeoil/data_source.py:272-278 | the same for text handles, which raise UnicodeDecodeError when stored bytes do not decode |
| DataSource.DataSource.BytesFileobj | snakeoil/data_source.py:293-299 | the same for bytes handles, which fail only on the mutability gate |
| DataSource.LocalSource.TextFileobj | snakeoil/data_source.py:208-221 | TypeError exactly for a writable request on an immutable source; otherwise mode "r+" or "r", with the encoding forced only when one is set and non-empty |
| DataSource.LocalSource.BytesFileobj | snakeoil/data_source.py:224-229 | TypeError exactly for a writable request on an immutable source; otherwise mode "rb+" or "rb" and no encoding |
| DataSource.LocalGatesAgree | snakeoil/data_source.py:208-229 | the text and bytes requests of a local source refuse the same requests and differ in mode only by the binary flag |
| DataSource.TransferData | snakeoil/data_source.py:351-358 | a closed reader raises ValueError; with chunk size 0 or nothing left the transfer succeeds and neither handle moves; otherwise the transfer succeeds exactly when the writer is open, writable and of the reader's kind, and then the reader is exhausted, reader and writer have both advanced by the remaining length, and the writer's buffer is its old buffer overwritten at its old position by the reader's remaining content; a refused write leaves the writer as it was and the reader's position at the end of the first chunk it read |
| DataSource.CopyChunks | snakeoil/data_source.py:356-358 | the `while data:` loop: an empty first chunk returns at once with nothing changed; otherwise every write succeeds exactly when the writer is open, writable and of the reader's kind, in which case the reader ends exhausted and the writer holds its starting content overwritten with everything read; a refused write changes nothing |
| DataSource.WriteChunk | snakeoil/data_source.py:357 | one write of the loop succeeds exactly when the writer is open, writable and of the reader's kind; only a first write can be refused, leaving the writer unchanged; success extends the copy by the chunk |
| DataSourceScenarios.OverwritePrefix | snakeoil/test/test_data_source.py:29-37 | writing over a prefix of equal length replaces exactly that prefix |
| DataSourceScenarios.EncodeConcat | snakeoil/data_source.py:263 | encoding distributes over concatenation |
| DataSourceScenarios.EncodeAsciiLength | snakeoil/data_source.py:263 | ASCII text encodes to one byte per character |
| DataSourceScenarios.DarOverFoonaniBytes | snakeoil/test/test_data_source.py:34-37 | writing the bytes of "dar" over those of "foonani" gives those of "darnani" |
| DataSourceScenarios.TextHandles | snakeoil/test/test_data_source.py:20-40 | the text-handle test: an immutable source refuses a writable handle; its read-only handle reads "foonani" and refuses a write with an exception it declares; on a mutable source, writing "dar" and closing commits "darnani", and a second close leaves it so |
| DataSourceScenarios.BytesHandleOnTextSource | snakeoil/test/test_data_source.py:42-44 | the bytes-handle test on a str source: the handle reads the encoded content, and committing the bytes written stores the text "darnani" back |
| DataSourceScenarios.ReadBytesOfText | snakeoil/test/test_data_source.py:30-31 | the read-only bytes handle of a source storing "foonani" reads back its encoding |
| DataSourceScenarios.CommitBytesOntoText | snakeoil/test/test_data_source.py:32-36 | writing the bytes of "dar" through a writable bytes handle and closing it stores the text "darnani" in the source |
| DataSourceScenarios.WriteDar | snakeoil/test/test_data_source.py:33 | writing the bytes of "dar" at the start of the handle holding those of "foonani" leaves those of "darnani" |
| DataSourceScenarios.ReadOnlyCloseTwice | snakeoil/data_source.py:86-92 | closing a read-only handle twice succeeds both times, since only the committing handle flushes first |
| DataSourceScenarios.OverwriteAtFive | snakeoil/test/test_data_source.py:114-117 | writing a text at offset 5 of itself keeps its first five characters and places the whole text after them |
| DataSourceScenarios.TransferTwice | snakeoil/test/test_data_source.py:105-117 | after the two transfers of the test the writer holds the first five characters followed by the whole data |
| Immutable.MutationGate.constructor | src/snakeoil/klass/immutable.py:7-11 | the token starts at the default that names no object |
| Immutable.MutationGate.Enter | src/snakeoil/klass/immutable.py:57-60 | entering a block allows exactly the given object and hands back the previous token |
| Immutable.MutationGate.Exit | src/snakeoil/klass/immutable.py:61-64 | leaving a block, normally or not, restores the token it was handed, so nested blocks unwind as a stack |
| Immutable.SimpleSetAttr | src/snakeoil/klass/immutable.py:85-88 | a set succeeds exactly when the token is the instance, binding the name and keeping every other attribute; otherwise AttributeError |
| Immutable.SimpleDelAttr | src/snakeoil/klass/immutable.py:90-93 | a delete succeeds exactly when the token is the instance and the attribute exists, removing only that attribute; otherwise AttributeError |
| Immutable.DefaultTokenRefusesAll | src/snakeoil/klass/immutable.py:7-11 | outside every block every set and delete is refused |
| Immutable.SimpleObject.SetAttr | src/snakeoil/klass/immutable.py:85-88 | the instance's `__setattr__` follows SimpleSetAttr and changes nothing when it raises |
| Immutable.SimpleObject.DelAttr | src/snakeoil/klass/immutable.py:90-93 | the instance's `__delattr__` follows SimpleDelAttr and changes nothing when it raises |
| Immutable.StrictObject.SetAttr | src/snakeoil/klass/immutable.py:110-111 | `Strict` always raises AttributeError on set |
| Immutable.StrictObject.DelAttr | src/snakeoil/klass/immutable.py:113-114 | `Strict` always raises AttributeError on delete |
| Immutable.AllowMutationWrapper | src/snakeoil/klass/immutable.py:66-74 | a mutation wrapper carries the flag that disables autowrapping |
| Immutable.Resolve | src/snakeoil/klass/immutable.py:79 | `getattr(cls, name, None)` finds a name exactly when the class or what it inherits defines it, and the class's own entry wins |
| Immutable.DisablesAutowrap | src/snakeoil/klass/immutable.py:81 | definition: a function marked `__disable_mutation_autowrapping__`, either by hand or by being a mutation wrapper; no contract of its own |
| Immutable.AutowrapOne | src/snakeoil/klass/immutable.py:79-82 | definition of one loop step: a name that resolves to an unmarked function is rebound to its wrapper; no contract of its own, see AutowrapEffect |
| Immutable.Autowrap | src/snakeoil/klass/immutable.py:78-82 | definition of the loop as a fold of AutowrapOne over the names; no contract of its own, its properties are AutowrapEffect, AutowrapFixes and AutowrapIdempotent |
| Immutable.AutowrapNamesUnrolled | src/snakeoil/klass/immutable.py:48-55 | the autowrap loop visits `__init__`, `__setstate__` and `__del__` in that order |
| Immutable.AutowrapEffect | src/snakeoil/klass/immutable.py:76-83 | after `__init_subclass__` each listed name resolves to nothing if it was absent, to the same function if it was marked, and to a wrapper of what it resolved to otherwise; every other entry is unchanged |
| Immutable.AutowrapFixes | src/snakeoil/klass/immutable.py:81 | a namespace whose listed names are all absent or marked is left alone |
| Immutable.AutowrapIdempotent | src/snakeoil/klass/immutable.py:73-83 | running the autowrap loop again changes nothing, so no method is wrapped twice |
| Immutable.PyClass.InitSubclass | src/snakeoil/klass/immutable.py:76-83 | the loop leaves the class namespace as the autowrap function of the old one |
| Immutable.DefineSubclass | src/snakeoil/klass/immutable.py:76-83 | a new subclass inherits its parent's view (only `object.__init__` for a direct subclass of Simple) and its namespace is autowrapped |
| ImmutableScenarios.Injection | tests/klass/test_immutable.py:65-94 | a plain `__init__` is wrapped, a subclass shares the inherited wrapper and gets its own `__setstate__` wrapped, and a marked `__init__` is kept as written |
| ImmutableScenarios.DisallowedMutation | tests/klass/test_immutable.py:96-102 | an empty subclass gets `object.__init__` wrapped, and its instances refuse set and delete |
| ImmutableScenarios.TestKlsInit | tests/klass/test_immutable.py:52-59 | the wrapped init sets `dar`, and with recursion the child is locked after its own init while the parent still sets `dar` to 3; the token is restored on exit |
| ImmutableScenarios.MutationRecursion | tests/klass/test_immutable.py:104-117 | the recursive init ends with `dar` equal to 3 and the instance locked afterwards |
| ImmutableScenarios.MutationUtilities | tests/klass/test_immutable.py:119-126 | a wrapped method and a `with` block may each mutate the instance |
| Klass.DictGetItem | src/snakeoil/_klass.py:9-18 | definition: a dict's `__getitem__`, raising KeyError for a missing key; no contract of its own, see DictContainsGet |
| Klass.Contains | src/snakeoil/_klass.py:9-18 | `contains` is true exactly when the lookup succeeds, false exactly when it raises KeyError, and otherwise propagates the lookup's error |
| Klass.Get | src/snakeoil/_klass.py:21-28 | `get` returns the looked-up value, the default exactly on KeyError, and otherwise propagates the error |
| Klass.DictContainsGet | src/snakeoil/_klass.py:9-28 | on a dict, `contains` is key membership and `get` is lookup with the default for a missing key |
| Klass.AttrOrSentinel | src/snakeoil/_klass.py:42-43 | a present attribute reads as its value and a missing one as the sentinel |
| Klass.AttrEqSpec | src/snakeoil/_klass.py:33-45 | reference definition of `generic_attr_eq`: identical objects are equal, a missing list is AttributeError, otherwise agreement on every listed attribute; no contract of its own, AttrEq and AttrNe are proved against it |
| Klass.AttrEq | src/snakeoil/_klass.py:33-45 | identical objects are equal; otherwise, with no `__attr_comparison__` on the first object, AttributeError; otherwise equal exactly when both agree on every listed attribute, a missing attribute agreeing only with a missing one |
| Klass.AttrNe | src/snakeoil/_klass.py:48-59 | `generic_attr_ne` fails exactly when `generic_attr_eq` does, with the same error, and otherwise answers its negation |
| Klass.AttrEqSymmetric | src/snakeoil/_klass.py:39-45 | with the same comparison list the comparison is symmetric, and every object equals itself even without a list |
| Klass.AttrEqIgnoresUnlisted | src/snakeoil/_klass.py:41-45 | objects agreeing on all listed attributes are equal whatever else they hold |
| Klass.JitAttr.constructor | src/snakeoil/_klass.py:79-102 | the descriptor keeps the function, storage name, singleton and `use_singleton` it is given |
| Klass.JitAttr.AccessOn | src/snakeoil/_klass.py:109-120 | an access computes exactly when the singleton is off, nothing is stored, or the singleton is stored; computing stores the result, and otherwise the stored value is returned and nothing changes |
| Klass.JitAttr.GetOn | src/snakeoil/_klass.py:104-120 | on the class the descriptor itself is returned and nothing runs; on an instance the access follows AccessOn |
| Klass.JitAttr.SecondAccessCached | src/snakeoil/_klass.py:112-120 | with the singleton on, an access after a computation that did not yield the singleton returns the same value without computing or changing anything |
| Klass.JitAttr.SingletonForcesRegeneration | src/snakeoil/_klass.py:113-119 | when the singleton is stored the next access recomputes |
| Klass.JitAttr.ComputedOnce | src/snakeoil/_klass.py:112-120 | with the singleton on, the function runs at most once over any number of accesses, unless it yields the singleton |
| Klass.JitAttr.NoSingletonAlwaysComputes | src/snakeoil/_klass.py:109-111 | with the singleton off, every access, however many came before, recomputes from the current state |
| Deprecated.Generic | src/snakeoil/klass/deprecated.py:57-84 | definition of the six `__generic_*` comparisons by the sign of `__cmp__`; no contract of its own, see GenericConsistent |
| Deprecated.GenericConsistent | src/snakeoil/klass/deprecated.py:57-84 | the six derived comparisons fit together: eq and ne are complements, exactly one of lt, eq and gt holds, le is lt or eq, ge is gt or eq, lt and ge and also gt and le are complements |
| Deprecated.Namespace.SetDefault | src/snakeoil/klass/deprecated.py:53-54 | `setdefault` binds the key only when it is absent and returns what it is bound to |
| Deprecated.Namespace.InjectImmutableInstance | src/snakeoil/klass/deprecated.py:44-54 | the scope becomes the old scope with `__setattr__` and `__delattr__` set by default |
| Deprecated.Namespace.InjectRichcmp | src/snakeoil/klass/deprecated.py:129-137 | the loop leaves the scope as the old one with the six comparisons set by default |
| Deprecated.WithDefaults | src/snakeoil/klass/deprecated.py:129-137 | definition of the injection loop as a fold of `setdefault` over the key list; no contract of its own, its properties are the WithDefaults lemmas below |
| Deprecated.WithDefaultsAppend | src/snakeoil/klass/deprecated.py:129-137 | one more `setdefault` after a run of them adds its key only if still absent |
| Deprecated.WithDefaultsEffect | src/snakeoil/klass/deprecated.py:129-137 | injection never overrides an existing entry, gives each absent default key its default, and adds no other key |
| Deprecated.WithDefaultsKeep | src/snakeoil/klass/deprecated.py:95-99 | a scope that already defines every default key is left unchanged |
| Deprecated.WithDefaultsIdempotent | src/snakeoil/klass/deprecated.py:129-137 | injecting twice is the same as injecting once |
| Deprecated.RichcmpKeysDistinct | src/snakeoil/klass/deprecated.py:129-136 | the six comparison keys are distinct |
| Deprecated.RichcmpKeepsUserLt | src/snakeoil/klass/deprecated.py:95-99 | a class that defined its own `__lt__` keeps it and gets the five other generic comparisons |
| Deprecated.Cmp | src/snakeoil/klass/deprecated.py:117-121 | `cmp` is 0, negative or positive exactly when its arguments are equal, less or greater |
| Deprecated.FooCmp | src/snakeoil/klass/deprecated.py:117-121 | definition of the example's `__cmp__`: compare `a`, then `b` when the `a` values are equal; no contract of its own, see FooOrder |
| Deprecated.FooOrder | src/snakeoil/klass/deprecated.py:117-121 | with the example's lexicographic `__cmp__`, eq holds exactly on equal values, lt and gt swap with the operands, and le is transitive |
| Deprecated.FooExample | src/snakeoil/klass/deprecated.py:123-124 | `foo(1, 2) >= foo(1, 1)`, `foo(1, 1) == foo(1, 1)`, and `foo(1, 2) < foo(1, 1)` is false |
| Deprecated.ImmutableObj.SetAttr | src/snakeoil/klass/deprecated.py:29-30 | `ImmutableInstance.__setattr__` always raises AttributeError |
| Deprecated.ImmutableObj.DelAttr | src/snakeoil/klass/deprecated.py:32-33 | `ImmutableInstance.__delattr__` always raises AttributeError |
| Deprecated.ImmutableObj.GetState | src/snakeoil/klass/deprecated.py:35-36 | the state is the instance's attribute mapping |
| Deprecated.ImmutableObj.SetState | src/snakeoil/klass/deprecated.py:38-41 | restoring writes every item of the state over the existing attributes |
| Deprecated.StateRoundTrip | src/snakeoil/klass/deprecated.py:35-41 | restoring one instance's state onto a new instance reproduces every attribute |
| Deprecated.StealDocs | src/snakeoil/klass/deprecated.py:170-185 | the functor keeps its name; a non-class target gives its doc; a class target gives the doc of `name`, or of the functor's own name when `name` is not given; a missing member raises AttributeError unless `ignore_missing`, in which case the functor is returned unchanged |
| Deprecated.StealDocsIdempotent | src/snakeoil/klass/deprecated.py:170-185 | decorating a second time with the same `steal_docs` changes nothing more |
| Deprecated.StealDocsExample | src/snakeoil/klass/deprecated.py:161-167 | `extend` decorated with `steal_docs(list)` carries `list.extend`'s doc |
| TestHarness.Parse | snakeoil/test/__init__.py:51-60 | a string gives that reason with no error list; a pair gives its reason with the listed errors, a single error becoming a one-element list; a sequence of another length raises ValueError and a non-iterable raises TypeError |
| TestHarness.Matches | snakeoil/test/__init__.py:62-69 | reference definition of `expected`: no list matches everything, otherwise the exception must be identical to a listed class; no contract of its own, Expected is proved against it |
| TestHarness.Expected | snakeoil/test/__init__.py:62-69 | `expected` is true for every exception when there is no list, and otherwise exactly when the exception is identical to a listed one |
| TestHarness.ParseThenMatch | snakeoil/test/__init__.py:51-69 | a parsed bare reason expects everything, a single error expects exactly that class, and a list expects exactly its members |
| TestHarness.TestResult.Record | snakeoil/test/__init__.py:197-268 | a callback made on the result appends its event to the result's log and changes nothing else |
| TestHarness.Optional | snakeoil/test/__init__.py:22-38 | an optional callback records its event exactly when the result has the method |
| TestHarness.TryResultCall | snakeoil/test/__init__.py:22-38 | `_tryResultCall` calls the method and returns True when the result has it, and returns None, recording nothing, otherwise |
| TestHarness.TestCallbacks | snakeoil/test/__init__.py:223-247 | definition of what the test phase records for each outcome; no contract of its own, see TodoClassifiesFailure |
| TestHarness.SuccessCallback | snakeoil/test/__init__.py:261-265 | definition of the success callback: unexpected success under a todo, success otherwise; no contract of its own, see SuccessExactly |
| TestHarness.Body | snakeoil/test/__init__.py:199-265 | reference definition of `run` inside its outer `try`: the callbacks, the phases called and what escaped; no contract of its own, RunBody is proved against it |
| TestHarness.Verdict | snakeoil/test/__init__.py:193-268 | reference definition of `run` as a whole: Body bracketed by startTest and stopTest; no contract of its own, RunTest is proved against it and the lemmas below are about it |
| TestHarness.RunBody | snakeoil/test/__init__.py:198-265 | the step-by-step run up to its outer `finally` records exactly the classification's callbacks and calls exactly its phases |
| TestHarness.RunTest | snakeoil/test/__init__.py:193-268 | `run` records `startTest`, the classification's callbacks and `stopTest`, and reports what escaped |
| TestHarness.BodyHasNoBrackets | snakeoil/test/__init__.py:197-268 | no classification callback is `startTest` or `stopTest` |
| TestHarness.BracketedOnce | snakeoil/test/__init__.py:193-268 | on every path `startTest` is first and `stopTest` is last, each recorded exactly once |
| TestHarness.SkipRunsNothing | snakeoil/test/__init__.py:199-209 | with skip set no phase runs and the only callback is addSkip, or addSuccess when the result has no addSkip |
| TestHarness.SetUpErrorStops | snakeoil/test/__init__.py:211-217 | a failing setUp records addError and neither the test nor tearDown runs |
| TestHarness.TodoClassifiesFailure | snakeoil/test/__init__.py:228-247 | a failure or error the todo expects is recorded as an expected failure when the result has `addExpectedFailure` and is not recorded at all when it has not; one the todo does not expect is recorded as an ordinary failure or error |
| TestHarness.SuccessExactly | snakeoil/test/__init__.py:199-265 | addSuccess is recorded exactly when the run was skipped on a result without addSkip, or when there is no todo and setUp, test and tearDown all passed |
| TestHarness.TearDownErrorSuppressesSuccess | snakeoil/test/__init__.py:253-265 | a tearDown error is recorded after all three phases ran and suppresses both success and unexpected success |
| TestHarness.PassWithTodoIsUnexpected | snakeoil/test/__init__.py:261-265 | a passing test with a todo records unexpected success, if the result can, and never success |
| TestHarness.InterruptEscapes | snakeoil/test/__init__.py:211-268 | KeyboardInterrupt escapes exactly when a phase that was called raised it |

## Left out

- `base.text_fileobj` and `base.bytes_fileobj` are not modelled. They only raise NotImplementedError. The `path` and `get_path` attributes of `base` and `local_source` are plain attribute reads and are not modelled either.
- Opening files is not modelled: `open_file`, `codecs.open`, the 32768-byte buffering window and the encodings. This is operating-system I/O. `local_source` is modelled only up to the open mode and forced encoding it asks for.
- The Python 2 branches are not modelled: `_convert_data` and `_reset_data` returning data as is, and `text_data_source`/`bytes_data_source` as aliases. Neither is the `codecs.open` opener.
- The `alias_class_method` accessors (`get_fileobj`, `get_text_fileobj`, `get_bytes_fileobj`) are not modelled. They only forward to other methods.
- `snakeoil.stringio` is not part of this model. Its handles are modelled with io.StringIO/io.BytesIO behaviour, as far as the data-source code uses them:
  - overwrite at the position;
  - pad with NUL or zero past the end;
  - ValueError from reads, writes, `seek` and `tell` once closed, and from a second `close` only on the committing handle, whose `close` starts with `flush()`;
  - `seek` only with `whence` 0.
- DataSource.Stream.Write: when a write is both of the wrong kind and on a closed writable stream, the model raises ValueError. That order of checks is assumed.
- Utf8.Encode: its own contract is only a length bound. Its meaning is stated by Utf8.DecodeEncode and Utf8.EncodeDecode.
- Utf8: Python strings that contain lone surrogates are not modelled, because Dafny characters are Unicode scalar values. Such strings are the only ones on which `str.encode()` can fail.
- DataSource.TransferData: requires the reader and the writer to be different objects. The source does not demand this. Transferring a stream into itself is not modelled.
- Immutable.MutationGate.Exit: does not model `ContextVar.reset` errors for a token used twice or in another context. Those cannot arise from the `try`/`finally` of `__allow_mutation__`.
- The thread, async and generator semantics of context variables are not modelled. The model has one global token.
- Calling wrapped functions is not modelled. The scenarios open and close the mutation block the wrapper would open around the body.
- `immutable_instance` is not modelled. It is `inject_immutable_instance` followed by class creation.
- The deprecation warnings are not modelled (`src/snakeoil/deprecation.py`). They are warnings plumbing and do not change behaviour.
- `GetAttrProxy` and `reflective_hash` are not modelled. They are thin reflection wrappers.
- Klass.JitAttr.GetOn: `use_cls_setattr=True` is not modelled. That path stores through the instance's own `__setattr__`, which may refuse. The model always stores as `object.__setattr__` does.
- Klass.JitAttr.AccessOn: compares the stored value with the singleton by value, where the source uses `is`. The two agree for the default singleton None.
- Klass.JitAttr: the wrapped function is modelled as a pure function of the instance's attributes.
- Klass.AttrEq: `__attr_comparison__` is taken to be a sequence of names. A value that is not iterable, which would raise TypeError, is not modelled.
- Klass: attributes served by properties or `__getattr__` hooks, which could raise other errors, are not modelled.
- TestHarness.TryResultCall: the module-name and Python-version dispatch of the arguments passed to `addExpectedFailure` is not modelled. The recorded event carries the exception class and the todo reason.
- `protect_process` is not modelled (subprocesses and the environment).
- `mk_cpy_loadable_testcase` is not modelled (module loading and the filesystem).
- The `suppress` warning filters inside `run` are not modelled.
- The extra `assert*` helpers of `TestCase` are not modelled.
- A missing mandatory callback on the result object (`startTest`, `addSuccess`, ...) is not modelled.
- How `run` finds `skip` and `todo` on the method or the class is not modelled. The model starts from the values it finds.
- TestHarness.RunBody: the "skipping" message written to stdout when the result has no `addSkip` is not modelled. It is console output.
- TestHarness.RunTest: `result=None`, which stands for `defaultTestResult()`, is not modelled. The model is always given a result object.
- `snakeoil/test/__init__.py` is Python 2 code (`basestring`, `except X, e`). The model follows its Python 2 meaning.
- `tests/klass/test_util.py` is not part of this model. It exercises `snakeoil.klass.util`, which is not modelled.
