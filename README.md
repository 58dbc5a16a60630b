# prf+ key derivation and the charon logger, in Dafny

This project models two small stateful parts of strongSwan and proves properties about them.

**The OpenSSL prf+ object** (`openssl_kdf.dfy`, module `OpensslKdf`) is IKEv2's prf+ (section 2.13 of RFC 7296), realised as HKDF-Expand only (section 2.3 of RFC 5869).
- The class `Kdf` holds the hasher and owned copies of `key` and `salt`.
- `set_param` replaces the key or the salt wholesale.
- Every `get_bytes` builds a fresh OpenSSL context from the current state. The source does this because adding HKDF info to an existing context appends to it (`ReusedContextAccumulates`).
- `openssl_kdf_create` fails closed, and `destroy` clears both secrets.
- OpenSSL and strongSwan's name tables are foreign code. They are the value `Library`, a record of functions that may fail:
  - a hash short-name lookup;
  - a digest lookup;
  - whether a context can be created;
  - whether OpenSSL accepts each call on a context;
  - the HKDF output bytes.
- `Expand` is the outcome of `get_bytes` as a function of the library, hasher, key, salt and length.

**The charon logger** (`logger.dfy`, module `Logger`) covers:
- the level filter (`(level & loglevel) == loglevel`) of `logg` and `log_bytes`;
- the mutators of the level mask;
- the prefix of `prepend_prefix`: the type and detail characters chosen by priority, the logger's name and the optional thread id;
- the hex-dump loop of `log_bytes`, which fills a 17-slot `ascii_buffer` array and a line buffer and flushes a line every 16 bytes.

Records that the logger writes to syslog or a `FILE` are appended to the logger's `records` sequence. Each hex line is an abstract `DumpLine`: its offset, its hex text and the string `%s` prints from the ascii buffer. The dump's hex column is read back by `ParseHex`/`DumpedBytes`, which invert the dump (`DumpRoundTrip`). The `DumpByte` loop body follows the code's indexing exactly:
- `i` counts from 1;
- the ascii slot is `i % 16`;
- that slot is written after the flush.

`octets.dfy` (module `Octets`) holds the shared `byte` type and `Option`.

## Model

| member | source | states |
|---|---|---|
| OpensslKdf.Kdf.GetType | src/libstrongswan/plugins/openssl/openssl_kdf.c:63-67 | whatever the object's state, its type is prf+ |
| OpensslKdf.Kdf.GetLength | src/libstrongswan/plugins/openssl/openssl_kdf.c:69-73 | the reported output limit is SIZE_MAX (2^64 - 1), whatever the state |
| OpensslKdf.Expand | src/libstrongswan/plugins/openssl/openssl_kdf.c:75-93 | a successful derivation yields exactly the requested number of bytes |
| OpensslKdf.ExpandSucceedsIff | src/libstrongswan/plugins/openssl/openssl_kdf.c:78-92 | derivation succeeds if and only if context creation, init, md, expand-only mode, key, info and derive all succeed, each on the context the earlier calls left; the output is HKDF over a context whose info is the current salt alone |
| OpensslKdf.RunAppend | src/libstrongswan/plugins/openssl/openssl_kdf.c:80-86 | issuing two batches of calls on a context is issuing the first and then, if every call of it succeeded, the second on the context it left |
| OpensslKdf.SetupOnContext | src/libstrongswan/plugins/openssl/openssl_kdf.c:81-85 | the configuration calls on any context set the hasher, the expand-only mode and the key, and append the salt to the info already there |
| OpensslKdf.ReusedContextAccumulates | src/libstrongswan/plugins/openssl/openssl_kdf.c:50-54 | configuring one context twice leaves the concatenation of both salts as its info (different from the later salt whenever the earlier one is non-empty), while an expansion derives from its own salt alone; this is why the object keeps key and salt and builds a fresh context per call |
| OpensslKdf.Kdf.GetBytes | src/libstrongswan/plugins/openssl/openssl_kdf.c:75-93 | TRUE exactly when Expand succeeds for the current hasher, key, salt and length; the buffer's first out_len bytes are then its output and the rest of the buffer is untouched |
| OpensslKdf.Kdf.AllocateBytes | src/libstrongswan/plugins/openssl/openssl_kdf.c:95-106 | TRUE with a chunk of exactly out_len bytes equal to the get_bytes output, otherwise FALSE with an empty (freed) chunk |
| OpensslKdf.Kdf.SetParam | src/libstrongswan/plugins/openssl/openssl_kdf.c:108-127 | always TRUE; KEY replaces the key by the value and keeps the salt, SALT the reverse; any other kind changes neither |
| OpensslKdf.Kdf.Destroy | src/libstrongswan/plugins/openssl/openssl_kdf.c:129-135 | salt and key are both cleared and the object is no longer usable |
| OpensslKdf.Kdf.constructor | src/libstrongswan/plugins/openssl/openssl_kdf.c:159-172 | a new object holds the chosen hasher, the 32-character '0' key and an empty salt |
| OpensslKdf.Create | src/libstrongswan/plugins/openssl/openssl_kdf.c:140-180 | an object is returned if and only if the algorithm is prf+, the hash has a short name, OpenSSL has that digest and the 8-byte self-test derivation succeeds; it then holds that digest, the placeholder key and an empty salt |
| OpensslKdf.RepeatedDerivationsAgree | src/libstrongswan/plugins/openssl/openssl_kdf.c:75-93 | two derivations with no set_param in between give the same outcome and bytes |
| OpensslKdf.SaltReplacementIsolation | src/libstrongswan/plugins/openssl/openssl_kdf.c:120-124 | after one salt is set, used and replaced by another, derivation depends on the second salt alone |
| OpensslKdf.KeyReplacementNoMixing | src/libstrongswan/plugins/openssl/openssl_kdf.c:115-119 | after two keys are set in turn, derivation depends on the second key alone |
| Logger.EnableWidensEmits | Source/charon/utils/logger.c:283-287 | after enabling bits every record written before is still written, as is any record at exactly the enabled bits |
| Logger.EnableSetsExactly | Source/charon/utils/logger.c:283-287 | enable_level sets all the given bits and leaves every other bit as it was |
| Logger.DisableClearsExactly | Source/charon/utils/logger.c:291-295 | disable_level clears all the given bits and leaves every other bit as it was |
| Logger.DisableSilences | Source/charon/utils/logger.c:291-295 | after disabling bits no record requesting one of them is written, and nothing is written that was not before |
| Logger.Emits | Source/charon/utils/logger.c:143 | a record at `loglevel` passes the filter exactly when none of its bits is missing from the logger's mask |
| Logger.TypeChar | Source/charon/utils/logger.c:84-107 | the type character is one of ~ ! # ? > - |
| Logger.TypeCharByPriority | Source/charon/utils/logger.c:84-107 | the type character is that of the first flag present in the order CONTROL, ERROR, RAW, PRIVATE, AUDIT, and '-' when none is |
| Logger.DetailChar | Source/charon/utils/logger.c:109-124 | the detail character is a digit from '0' to '3' |
| Logger.DetailCharByPriority | Source/charon/utils/logger.c:109-124 | the detail character is '3' when a bit of LEVEL3-LEVEL2 is present, else '2' for LEVEL2-LEVEL1, else '1' for LEVEL1, else '0' |
| Logger.FirstSetPicksFirst | Source/charon/utils/logger.c:84-107 | an if-else chain over flags picks the first flag met, whatever the later flags are |
| Logger.FirstSetFallback | Source/charon/utils/logger.c:84-107 | an if-else chain that meets no flag gives its final default |
| Logger.CharNibbles | Source/charon/utils/logger.c:215-250 | for a byte read as a signed or unsigned char, the shifted and masked values are its high and low nibbles, and the 31 < c < 127 test is the printable test of the byte |
| Logger.DumpLines | Source/charon/utils/logger.c:213-266 | a dump has ceil(len/16) lines and line k starts at offset 16k |
| Logger.HexRunParses | Source/charon/utils/logger.c:215-241 | the hex text of bytes, one upper-case pair each followed by a space, reads back as those bytes whatever follows |
| Logger.DumpLineSpellsChunk | Source/charon/utils/logger.c:218-231 | line k starts at offset 16k and its hex column spells exactly bytes 16k to 16k+15, or what is left for the last line |
| Logger.DumpRoundTrip | Source/charon/utils/logger.c:213-266 | reading the hex columns of all lines back gives exactly the dumped bytes, in order |
| Logger.FlushStep | Source/charon/utils/logger.c:218-231 | the 16th byte of a line completes it as the full line of those 16 bytes, restarts the hex text, and leaves that byte's character in slot 0 of the cleared ascii buffer |
| Logger.AppendStep | Source/charon/utils/logger.c:232-250 | any other byte adds its pair and one space to the line and its character to the next ascii slot |
| Logger.FinishDump | Source/charon/utils/logger.c:255-266 | after the loop the hex buffer is non-empty exactly when len % 16 != 0, and flushing it then completes the dump |
| Logger.DumpByte | Source/charon/utils/logger.c:213-252 | one loop pass keeps the dump state: finished lines, offset, hex buffer and ascii_buffer are those of the bytes so far |
| Logger.ClearSlots | Source/charon/utils/logger.c:230 | the first 16 slots of ascii_buffer become NUL and the terminator stays |
| Logger.PutSlot | Source/charon/utils/logger.c:243-250 | the slot gets the byte when it is printable (32..126) and '*' otherwise |
| Logger.HexDump | Source/charon/utils/logger.c:211-266 | the loop emits exactly DumpLines(bytes): a line per 16 bytes and a trailing partial line only when len % 16 != 0 |
| Logger.AsciiColumnShifted | Source/charon/utils/logger.c:243-250 | as written, the first line's ascii column is empty, and every later line's column begins with the last byte of the line before |
| Logger.OneByteDumpHidesAscii | Source/charon/utils/logger.c:255-266 | dumping the single byte 0x41 prints hex "41 " and an empty ascii column |
| Logger.IntendedAsciiMatchesHex | Source/charon/utils/logger.c:243-250 | in the corrected dump, each line's ascii column shows exactly the bytes its hex column spells, and the offsets and hex text are unchanged from the code |
| Logger.Logger.constructor | Source/charon/utils/logger.c:332-343 | a new logger has the given level, thread-id flag and output, the given name or "" for NULL, and no records |
| Logger.Logger.PrefixFor | Source/charon/utils/logger.c:81-134 | the prefix carries the first set type character by priority (default '-') and the first set detail character (default '0') of `loglevel`, the logger's name, and the thread id exactly when `log_thread_id` is set |
| Logger.Logger.Log | Source/charon/utils/logger.c:141-168 | one record with the prefix is appended exactly when every requested bit is enabled; otherwise nothing is written |
| Logger.Logger.LogBytes | Source/charon/utils/logger.c:173-270 | exactly when every requested bit is enabled, a label record with the length is appended, followed by the dump lines of the bytes; otherwise nothing is written |
| Logger.Logger.LogChunk | Source/charon/utils/logger.c:275-278 | the same records as log_bytes on the chunk's bytes |
| Logger.Logger.EnableLevel | Source/charon/utils/logger.c:283-287 | the new mask is the old mask with the given bits set |
| Logger.Logger.DisableLevel | Source/charon/utils/logger.c:291-295 | the new mask is the old mask with the given bits cleared |
| Logger.Logger.GetLevel | Source/charon/utils/logger.c:299-302 | returns the current mask |

## Left out

- OpenSSL's EVP and HKDF internals and strongSwan's `enum_to_name`/`hasher_algorithm_from_prf` are foreign code. They are the fields of `Library`. Context creation failure is a fixed flag of the library rather than a per-call event.
- HKDF itself (its HMAC chain and its output limit of 255 hash lengths) is not modelled. A limit shows up only as OpenSSL rejecting the derive call.
- Memory zeroing (`chunk_clear`, `chunk_free`, `free`) is modelled as the field or chunk becoming empty. `destroy` is modelled by a ghost `alive` flag that every later method requires.
- OpensslKdf.Create: when the digest lookup yields NULL, the source first builds the object and then destroys it. The model returns NULL without building it. The caller sees the same result.
- Allocation failure in `INIT`, `chunk_alloc` and `allocator_alloc` is not modelled; allocation always succeeds.
- `size_t` is modelled as an unbounded natural; the model does not capture overflow of lengths.
- The variadic argument plumbing (`VA_ARGS_GET`, `va_list`) is left out. `set_param` takes the chunk directly, and `openssl_kdf_create` takes the PRF identifier directly.
- The build condition on HMAC availability and the OpenSSL version is not modelled.
- Level constants: logger.h is not part of this model, so CONTROL, ERROR, RAW, PRIVATE, AUDIT and LEVEL1 to LEVEL3 are left as abstract 32-bit masks.
- Output I/O is not modelled: `syslog`, `vsyslog`, `openlog`, `fprintf` and `vfprintf`.
  - Records are appended to a sequence. The output is the value `Output` (syslog or a stream) and is only stored.
  - Printf expansion of the user's format is not modelled: a `Message` record keeps the raw format string.
  - `snprintf` truncation at MAX_LOG and the `%5d` and `%16s` padding are left out. The last dump line's ascii column is recorded unpadded.
- `pthread_self` becomes the `thread` parameter of each logging call. The mutex of `log_bytes` is left out because the model is sequential.
- The logger's `destroy` only frees memory and is left out.
- `get_length` reports SIZE_MAX, not HKDF's real limit of 255 hash lengths; the model returns SIZE_MAX as the code does.
- `set_param` answers TRUE for an unknown parameter kind; the model does the same.
- Logger.Logger.LogBytes keeps the ascii column as the code writes it. The corrected column exists only as the function `IntendedDumpLines` and its lemma, so that the dump of the program as it stands stays faithful.

## Findings

| source | as written | input that shows it | evidently intended | confidence | as-written member | corrected member |
|---|---|---|---|---|---|---|
| Source/charon/utils/logger.c:243-250 | the ascii character of byte number i (counting from 1) goes to slot i % 16 after the line is flushed. The 16th byte of a line therefore lands in slot 0 of the next line, and slot 0 of the first line stays NUL, which ends the printed string | the one-byte dump of 0x41 prints hex "41 " with an empty ascii column. In a 32-byte dump, line 0 shows no ascii and line 1's column starts with byte 15 | each line's ascii column shows its own bytes: slot (i - 1) % 16, written before the line is printed | not executed | Logger.AsciiColumnShifted | Logger.IntendedAsciiMatchesHex |
