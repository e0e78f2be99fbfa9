# Jilali realtime core: model and proofs

This Dafny project models the parts of the Jilali backend where bytes, callbacks and shared maps meet, and proves
what they keep: the TEA codecs, the ht_im wire format, the connections and senders under it, the rooms and ghost
publishers above it, and two smaller transforms. `dafny verify dfyconfig.toml` checks everything.

## How it is laid out

| files | what they hold |
|---|---|
| `powers`, `bytes`, `wrappers` | powers of two, bytes and little-endian integers, `Option` and `Result` |
| `tea_block`, `tea_chain`, `tea_padding`, `tea_cipher`, `qq_tea_cipher`, `cc2018_cipher` | the block transform on 32-bit words, the feedback chain, the padding, and the three ciphers |
| `tea_vectors` | a known answer of the native codec, round by round |
| `ascii_text`, `ht_im_packet_framer`, `ht_im_frame_decoder`, `ht_im_reassembly`, `ht_im_dispatch`, `ht_im_connector` | headers, acks, pushes, replays and acknowledgements; chunks into frames; what a frame does; and the connector's methods and runs |
| `push_laws`, `frame_laws` | what the decoders make of each kind of body, and what the connector does with whole frames |
| `sequential_sender`, `sender_outcomes`, `reconnect_strategy`, `live_hub_connector`, `live_hub_laws` | the chain of futures, the outcome of each send, the backoff, the reconnecting connector, and what it does at each step of a run |
| `room_events`, `room_event_laws`, `ghost_streams`, `visible_ghosts`, `upstream_laws`, `delivery_laws`, `audience_revisions`, `roster_laws`, `room_event_source` | the operations on rooms as functions of the state, the laws of their runs, and the classes proved against those functions |
| `json_trees`, `snake_to_camel`, `camel_laws`, `caption_frames`, `caption_laws` | the key renaming and the caption discriminator, with what each does to a key |

Where the program updates fields or arrays in place, a class or a method does so here, proved against a function of
the old state (`After...`, or a specification such as `Encrypted`); the laws are proved of those functions and of
runs made of them. Where it is an expression, the model is a function.

## Assumptions

- Each callback and each public method is one step, in any order the runtime allows. The program checks and then acts
  on volatile fields, so two threads could interleave inside a step; the runs here do not.
- A socket's open callback, and what `attemptConnect` chains to it, come before its frames and its close callback; an
  error is its last callback; and a connector is connected once, as `RoomEventSource` does. An unsubscription is of a
  subscription still open.
- `connect` does not throw inside `subscribe`: the user id is a number and the room name fits into a URI. Listeners given
  to a connector do not throw, and neither do SQL statements.
- One instance runs, no row of the ghost table is purged, subscribers keep up, and the table changes only through the
  two ghost endpoints.
- Random bytes, the key of `Cc2018Cipher` and every jittered delay are parameters or arbitrary choices, so the results
  hold for all of them. JSON parsing, zlib, gzip and Base64 are arbitrary functions on byte strings that may fail.

## What the proofs found

- **Live and replayed pushes.** Where the payload decrypts, they agree exactly when the result is not gzip: the live
  decoder has no gzip case, so every gzip body is a packet on which they differ. Other disagreements are payloads the
  cipher refuses (unaligned, or a short key), which live decoding reports as a failure and replay decodes as they are,
  and most payloads below a block.
- **Message acknowledgements.** The comment at `HtImFrameDecoder.java:175-178` puts the prefix last; the code reads it
  third, and the model follows the code. Without the zero byte, a sequence that is a nonzero multiple of 256 is read wrongly.
- **The two TEA ciphers** agree except on a single block, which only `QqTeaCipher` answers. Every padded buffer with a
  high bit set in its first byte is accepted by `TeaCipher` and never produced by its own `encrypt`.
- **Typing.** A body of at most four bytes counts as typing in the clear, and as not typing once encrypted: the cipher's
  trailer fills it up with zeros.
- **Receipts.** The seven zero bytes the cipher leaves behind let bodies of 31 to 37 bytes pass the length check of 38.
- **Handling an ht_im frame** ends in an exception in exactly two cases. One is a negative declared length of a frame whose
  payload is copied; the ack of a push has been sent by then. The other is a session key that arrives once the
  heartbeat's scheduler was shut down, by `close` or before a new login (`HtImUpstreamConnector.java:306`): the session
  is shown as connected, without a heartbeat and without the sync requests.
- **The LiveHub connector** does not clear `announcedConnected` on a retry, although its comment says it is per
  connection attempt. While it is open, exactly the first heartbeat interval since `connect` is announced, on whichever
  socket it arrives, so the socket of a retry may or may not be; there are runs of both kinds. After a socket error the
  connector still counts as connected, its heartbeat goes on, and nothing will reconnect it. A frame throws when a
  heartbeat interval arrives after `close`, and when its event object has no `notify_type`, at any time, and never
  otherwise; one frame of the second kind therefore strands an open connector.
- **`SequentialSender.reset`** lets the next send start beside one in flight; the order is per epoch.
- **`audienceRevision`** is documented as 0 for a room without subscribers; a late event of a closed connector makes it 1.
  Across a teardown the reconcile endpoint misses changes, on a run that is given; the exact condition is proved. The
  comment at `RoomEventSource.java:174-175` relies on clients starting over at -1 when they join, so this concerns a
  client that goes on polling without joining again.
- **Ghosts.** A client cannot tell the synthetic events from the upstream's; when it still shows the right users is proved.
- **Connection state.** The fallback to "disconnected" for a later subscriber is never taken.
- **Streams.** The disconnect listener ends no stream: it is called only once its connector was closed, and that is in the
  step that takes the connector out of the map and completes its sink. Only a failed first connection ends its room's
  streams early.
- **Backoff.** Above a cap of 2^62 ms the doubling can overflow and the bound turn negative; the default is 30 s.
- **Key renaming** loses fields exactly when two keys of one object have the same image; the last value is kept, where the
  key first came up.

## Model

| member | source | states |
|---|---|---|
| ByteStrings.ValueOfBits | src/main/java/com/jilali/im/HtImPacketFramer.java:207-208 | a byte read unsigned, the integer cast of its bits, is the number with those binary digits |
| ByteStrings.IntRoundTrip | src/main/java/com/jilali/im/HtImPacketFramer.java:62-67 | casting any number to a byte, its low eight binary digits, and reading it back unsigned reduces it modulo 256 |
| ByteStrings.ByteRoundTrip | src/main/java/com/jilali/im/HtImPacketFramer.java:207-211 | reading a byte unsigned and casting back gives the byte |
| ByteStrings.LittleEndianRoundTrip | src/main/java/com/jilali/im/HtImPacketFramer.java:66-70 | writing any number into a little-endian field of any width and reading it reduces it modulo 2^(8*width) |
| ByteStrings.UnsignedRoundTrip | src/main/java/com/jilali/im/HtImPacketFramer.java:205-216 | every byte string is the little-endian form of the number it reads as |
| ByteStrings.SignedRoundTrip | src/main/java/com/jilali/im/HtImPacketFramer.java:70-71 | a number that fits a signed field is read back unchanged, negative or not |
| TeaBlock.RoundsCancel | src/main/java/com/jilali/crypto/TeaCipher.java:94-116 | one decryption round and one encryption round with the same sum undo each other, in both orders |
| TeaBlock.SchedulesAreReversed | src/main/java/com/jilali/crypto/TeaCipher.java:93-115 | decryption walks the 16 round sums of encryption backwards, although the two start from unrelated-looking constants |
| TeaBlock.DecryptUndoesLastRounds | src/main/java/com/jilali/crypto/TeaCipher.java:92-118 | n decryption rounds undo exactly the last n encryption rounds |
| TeaBlock.EncryptUndoesLastRounds | src/main/java/com/jilali/crypto/TeaCipher.java:92-118 | n encryption rounds undo exactly the last n decryption rounds |
| TeaBlock.BlockInverse | src/main/java/com/jilali/crypto/TeaCipher.java:92-118 | for every key the two block transforms are inverse bijections |
| TeaBlock.EncryptBlock | src/main/java/com/jilali/crypto/TeaCipher.java:106-118 | the loop computes the 16 rounds, and decryption of its result is the input; what the rounds compute is fixed by `TeaVectors` |
| TeaBlock.DecryptBlock | src/main/java/com/jilali/crypto/TeaCipher.java:92-104 | the loop computes the 16 inverse rounds, and encryption of its result is the input; what they compute is fixed by `TeaVectors` |
| TeaChain.WordRoundTrip | src/main/java/com/jilali/crypto/TeaCipher.java:87-89 | four bytes and the little-endian word they make determine each other |
| TeaChain.BlocksRoundTrip | src/main/java/com/jilali/crypto/TeaCipher.java:123-132 | blocks written out and read in again are the same blocks |
| TeaChain.BytesRoundTrip | src/main/java/com/jilali/crypto/TeaCipher.java:155-164 | an aligned buffer read as blocks and written out again is the same buffer |
| TeaChain.DecryptUndoesEncrypt | src/main/java/com/jilali/crypto/TeaCipher.java:134-182 | from any pair of carried blocks, decrypting the chain gives back the plaintext blocks |
| TeaChain.EncryptUndoesDecrypt | src/main/java/com/jilali/crypto/TeaCipher.java:134-182 | from any pair of carried blocks, encrypting the decrypted chain gives back the ciphertext blocks |
| TeaChain.ChainInverse | src/main/java/com/jilali/crypto/TeaCipher.java:120-184 | `encryptChain` and `decryptChain` undo each other in both orders, for every key and every aligned buffer |
| TeaChain.EncryptChain | src/main/java/com/jilali/crypto/TeaCipher.java:152-184 | the loop over the output buffer, carrying four words, fills it with the chain of the whole input |
| TeaChain.DecryptChain | src/main/java/com/jilali/crypto/TeaCipher.java:120-150 | the loop over the output buffer, carrying four words, fills it with the inverse chain of the whole input |
| TeaPadding.PaddedLength | src/main/java/com/jilali/crypto/TeaCipher.java:38-42 | the padded buffer is the shortest aligned one with ten bytes of room around the data |
| TeaPadding.PaddingRecognised | src/main/java/com/jilali/crypto/TeaCipher.java:38-48 | which aligned buffers are a padding of p for some random header: exactly those with a first byte below 8, the header it declares, p, and seven zeros |
| TeaPadding.Pad | src/main/java/com/jilali/crypto/TeaCipher.java:38-48 | the buffer filled in place is the header, the data and the zero trailer, for every random filler |
| TeaCipher.Encrypt | src/main/java/com/jilali/crypto/TeaCipher.java:32-51 | which inputs are refused; what is produced decrypts to the plaintext |
| TeaCipher.TrailerIsZero | src/main/java/com/jilali/crypto/TeaCipher.java:62-66 | the check looks at all of the last seven bytes and nothing else |
| TeaCipher.Unpad | src/main/java/com/jilali/crypto/TeaCipher.java:61-76 | the trailer check, the length check and the payload, for every decrypted buffer |
| TeaCipher.Decrypt | src/main/java/com/jilali/crypto/TeaCipher.java:53-77 | the error for each malformed input, and otherwise the payload, as the specification `Decryption` says; the laws below are about that |
| TeaCipher.RoundTrip | src/main/java/com/jilali/crypto/TeaCipher.java:32-77 | every nonempty plaintext survives, for every 16-byte key and every random header |
| TeaCipher.EncryptionImage | src/main/java/com/jilali/crypto/TeaCipher.java:32-77 | a ciphertext is what `encrypt` produces from p, for some random header, if and only if p is nonempty, `decrypt` accepts it with p, and the padded buffer starts with a byte below 8 |
| TeaCipher.HighFirstByteIsAccepted | src/main/java/com/jilali/crypto/TeaCipher.java:68-69 | for every text, key, filler and first byte of 8 or more with the right low bits: a ciphertext that is accepted with the text and that `encrypt` never produces from it |
| TeaCipher.DecryptionOfPadding | src/main/java/com/jilali/crypto/TeaCipher.java:53-77 | the chain of any padding, of the empty text too, is accepted and yields the text |
| TeaCipher.OneBlockIsRejected | src/main/java/com/jilali/crypto/TeaCipher.java:53-77 | no single block is ever accepted |
| TeaCipher.RefusalsAreExact | src/main/java/com/jilali/crypto/TeaCipher.java:53-73 | which error is raised for which input; the length underflows only in one block, or in two under the longest header |
| QqTeaCipher.Encrypt | src/main/java/com/jilali/crypto/QqTeaCipher.java:32-44 | throws exactly for short keys; what it produces decrypts to the input and seven zero bytes |
| QqTeaCipher.Decrypt | src/main/java/com/jilali/crypto/QqTeaCipher.java:26-29 | answers exactly for aligned buffers of at least a block and keys of at least 16 bytes, never with nothing, and null or an exception otherwise |
| QqTeaCipher.WithoutHeader | src/main/java/com/jilali/crypto/QqTeaCipher.java:110-116 | the header is cut off when it is shorter than the buffer; something is always left |
| QqTeaCipher.RoundTrip | src/main/java/com/jilali/crypto/QqTeaCipher.java:26-44 | every text, empty or not, comes back followed by the seven zero bytes, and comes back exactly under `TeaCipher` |
| QqTeaCipher.CiphersAgree | src/main/java/com/jilali/crypto/QqTeaCipher.java:79-117 | `TeaCipher` accepts with p if and only if there is more than one block and this cipher answers p followed by seven zeros |
| QqTeaCipher.RefusalsAreExact | src/main/java/com/jilali/crypto/QqTeaCipher.java:26-29 | null exactly below one block, an exception exactly for an unaligned buffer or a short key from there on |
| Cc2018Cipher.Encode | src/main/java/com/jilali/crypto/Cc2018Cipher.java:36-45 | refused exactly for the empty text; the result decodes to the plaintext |
| Cc2018Cipher.Decode | src/main/java/com/jilali/crypto/Cc2018Cipher.java:47-55 | too short a payload is refused, and otherwise the first 16 bytes are the key |
| Cc2018Cipher.RoundTrip | src/main/java/com/jilali/crypto/Cc2018Cipher.java:36-55 | the payload is a key and the least aligned length of at least ten more than the text, so the length guard never rejects it, and it decodes to the text |
| Cc2018Cipher.RefusalIsExact | src/main/java/com/jilali/crypto/Cc2018Cipher.java:47-55 | refused for its length exactly below 24 bytes, and as unaligned from there on |
| TeaVectors.SumVector | src/main/java/com/jilali/crypto/TeaCipher.java:93-103 | the sixteen round sums of decryption, in literal words |
| TeaVectors.FirstBlock | src/main/java/com/jilali/crypto/TeaCipher.java:92-104 | one block through all sixteen rounds, with the words after each round |
| TeaVectors.ChainIsDecrypted | src/main/java/com/jilali/crypto/TeaCipher.java:120-150 | three blocks of a known payload: key words, word order and feedback |
| TeaVectors.PayloadIsDecoded | src/test/java/com/jilali/crypto/Cc2018CipherTest.java:35-39 | the payload the native codec produced for a seven-byte text decodes to that text: block, chain, padding, and the key in front |
| TeaVectors.ChainIsEncrypted | src/main/java/com/jilali/crypto/TeaCipher.java:152-184 | encrypting the padded buffer gives the ciphertext of that payload back, although its first byte is one `encrypt` never writes itself |
| AsciiText.UuidIsPlainText | src/main/java/com/jilali/im/HtImFrameDecoder.java:218-229 | a UUID survives NUL removal and trimming and is its own first match |
| AsciiText.StripNullsConcat | src/main/java/com/jilali/im/HtImFrameDecoder.java:264-266 | removing NULs works piece by piece |
| AsciiText.TrimCutsBlanks | src/main/java/com/jilali/im/HtImFrameDecoder.java:264-266 | trimming cuts bytes of at most a space off both ends, all of them and nothing else |
| PushLaws.UuidGroups | src/main/java/com/jilali/im/HtImFrameDecoder.java:261-262 | a UUID is five groups of hexadecimal digits of either case, of 8, 4, 4, 4 and 12, with hyphens between |
| HtImPacketFramer.ParsePacket | src/main/java/com/jilali/im/HtImPacketFramer.java:59-73 | parsing a built packet gives every field reduced to its width, the payload length, and the payload |
| HtImPacketFramer.ParseAck | src/main/java/com/jilali/im/HtImPacketFramer.java:79-93 | an ack parses to the next command modulo 2^16 with the same sequence number and ids and no payload |
| HtImPacketFramer.PacketFramer.NextSeq | src/main/java/com/jilali/im/HtImPacketFramer.java:40-42 | the low 16 bits of a counter that moves by one |
| HtImPacketFramer.PacketFramer.BuildPacket | src/main/java/com/jilali/im/HtImPacketFramer.java:59-73 | the buffer written step by step parses back to the arguments with the next sequence number |
| FrameLaws.PacketBytes | src/main/java/com/jilali/im/HtImPacketFramer.java:59-73 | every byte and field of a built packet, among them the 4, 0 and 1 behind the type |
| FrameLaws.AckBytes | src/main/java/com/jilali/im/HtImPacketFramer.java:79-94 | every byte and field of an ack: the same three bytes, the next command, bytes 6 to 16 copied, and length 0 |
| FrameLaws.PayloadIsCut | src/main/java/com/jilali/im/HtImPacketFramer.java:205-216 | the payload of a frame is what follows the header, cut to the declared length, and a negative length cannot be copied |
| HtImFrameDecoder.DecodeF2 | src/main/java/com/jilali/im/HtImFrameDecoder.java:59-72 | the live decoding of a push: nothing without a key or a payload, a failure when the cipher throws, the exception of a negative length left to the caller; `PushLaws` says what each body becomes |
| HtImFrameDecoder.DecryptOffline | src/main/java/com/jilali/im/HtImFrameDecoder.java:139-149 | which replayed payloads are replaced by their decryption, by key type and magic byte |
| HtImFrameDecoder.DecodeOfflinePacket | src/main/java/com/jilali/im/HtImFrameDecoder.java:123-170 | the replayed decoding, with its clamped length, gzip case and every way to yield nothing; `PushLaws` says what each body becomes |
| HtImFrameDecoder.ReplayedHeader | src/main/java/com/jilali/im/HtImFrameDecoder.java:157-166 | a replayed packet has the header of a push, with its own key type, command, ids and length and no sequence number |
| HtImFrameDecoder.LiveAndReplayedAgree | src/main/java/com/jilali/im/HtImFrameDecoder.java:59-101 | for every encrypted packet with a payload and every key, live and replayed decoding agree if and only if the payload decrypts to something that is not gzip, or is below a block, not gzip, and decodes to nothing as it stands |
| HtImFrameDecoder.GzipPushesDiffer | src/main/java/com/jilali/im/HtImFrameDecoder.java:151-163 | every gzip body, under every key, filler and header with key type 1, is a packet on which they differ: live it is unknown, replayed it is JSON or nothing |
| HtImFrameDecoder.EncryptedBodyIsDecoded | src/main/java/com/jilali/im/HtImFrameDecoder.java:59-72 | after any header, an encrypted body is decoded as itself with the trailer left on |
| HtImFrameDecoder.JsonIgnoresTrailer | src/main/java/com/jilali/im/HtImFrameDecoder.java:84-100 | the trailer is invisible in a JSON push |
| HtImFrameDecoder.ReceiptIgnoresTrailer | src/main/java/com/jilali/im/HtImFrameDecoder.java:77-81 | when a receipt is read and of which bytes: the trailer makes bodies of 31 to 37 bytes long enough |
| HtImFrameDecoder.JsonPushSurvives | src/main/java/com/jilali/im/HtImFrameDecoder.java:59-101 | a NUL-free JSON text, encrypted and framed, reaches the parser exactly, with trailing whitespace trimmed |
| HtImFrameDecoder.ReceiptSurvives | src/main/java/com/jilali/im/HtImFrameDecoder.java:59-81 | a receipt of at least 38 bytes, encrypted and framed, names the text of its bytes 2 to 38 |
| PushLaws.CompressedBodyIsInflated | src/main/java/com/jilali/im/HtImFrameDecoder.java:84-100 | a body that starts with 0x78 is what its inflated text parses to, end-trimmed, and is ignored when it does not inflate to an object |
| PushLaws.FirstByteDecides | src/main/java/com/jilali/im/HtImFrameDecoder.java:77-92 | 0x08 and nothing else is a poke, the other first bytes but 0x25, 0x78 and 0x7B give an unknown push, and 0x25 a receipt from 38 bytes on |
| PushLaws.BodyIsReadBothWays | src/main/java/com/jilali/im/HtImFrameDecoder.java:59-170 | sent live or replayed, an encrypted body that is not gzip decodes to the same: what it is with the trailer on it |
| PushLaws.CompressedPushSurvives | src/main/java/com/jilali/im/HtImFrameDecoder.java:84-100 | a compressed push survives encryption, live and replayed: the parser sees its inflated text |
| PushLaws.PokeSurvives | src/main/java/com/jilali/im/HtImFrameDecoder.java:82-82 | and so does a poke, whatever follows its first byte |
| PushLaws.UndecryptablePushes | src/main/java/com/jilali/im/HtImFrameDecoder.java:63-70 | live, a payload below one block is ignored, and an unaligned one or a short key is a failure to decrypt |
| PushLaws.UnreadPushes | src/main/java/com/jilali/im/HtImFrameDecoder.java:59-62 | nothing is read without a session key or a payload, and a length that cannot be copied is the caller's exception |
| PushLaws.UndeclaredCipherIsTried | src/main/java/com/jilali/im/HtImFrameDecoder.java:144-149 | a JSON body encrypted under key type 0 is decrypted if and only if its ciphertext does not start like a body; otherwise the packet is decoded as without a key |
| PushLaws.PayloadStaysAsItIs | src/main/java/com/jilali/im/HtImFrameDecoder.java:139-149 | nothing is decrypted without a key of 16 bytes, for another key type, or when the length is not a multiple of 8 |
| PushLaws.GzipBodyIsInflated | src/main/java/com/jilali/im/HtImFrameDecoder.java:151-164 | a gzip body is what its text, an object or an array, parses to, and nothing otherwise |
| PushLaws.GzipIsReplayed | src/main/java/com/jilali/im/HtImFrameDecoder.java:123-164 | in a packet that is not encrypted, with or without a key, a gzip payload reaches the parser inflated |
| PushLaws.ReplayedPayloadIsCut | src/main/java/com/jilali/im/HtImFrameDecoder.java:133-137 | the payload of a replayed packet is cut to its declared length; a length of 0 or less drops the packet |
| HtImFrameDecoder.ReadStrictAck | src/main/java/com/jilali/im/HtImFrameDecoder.java:206-232 | the declared layout with its choice of byte order, optional zero byte and three sequence widths |
| HtImFrameDecoder.DecodeMsgAck | src/main/java/com/jilali/im/HtImFrameDecoder.java:187-257 | inflation, the empty acknowledgement, the declared layout, and the scan for a UUID, in that order |
| HtImFrameDecoder.AckBodyIsStrict | src/main/java/com/jilali/im/HtImFrameDecoder.java:203-232 | a body of the declared layout decodes to its own parts, in either byte order of the length |
| HtImFrameDecoder.AckWithZeroByte | src/main/java/com/jilali/im/HtImFrameDecoder.java:187-235 | with the zero byte: exactly the UUID, the 64-bit sequence and the prefix, for every one of each |
| HtImFrameDecoder.AckWithoutZeroByte | src/main/java/com/jilali/im/HtImFrameDecoder.java:187-235 | without the zero byte: right if and only if the low byte of the sequence is not zero, or the sequence is |
| HtImFrameDecoder.SequenceWithoutZeroByte | src/main/java/com/jilali/im/HtImFrameDecoder.java:222-228 | what is read instead: the next four bytes of the sequence |
| PushLaws.AckKeepsItsText | src/main/java/com/jilali/im/HtImFrameDecoder.java:217-232 | the id is the whole text of the declared layout, of which the UUID may be any part |
| PushLaws.AckIsScanned | src/main/java/com/jilali/im/HtImFrameDecoder.java:238-253 | without a declared length, the first UUID is the id and the last eight bytes are the sequence, with prefix 0 |
| PushLaws.CompressedAckIsInflated | src/main/java/com/jilali/im/HtImFrameDecoder.java:190-196 | a compressed acknowledgement is the one it inflates to |
| PushLaws.ShortAckIsEmpty | src/main/java/com/jilali/im/HtImFrameDecoder.java:198-201 | one of at most 16 bytes is an empty acknowledgement |
| HtImReassembly.OneFrame | src/main/java/com/jilali/im/HtImUpstreamConnector.java:522-533 | the chunks of one frame come out as that frame, whatever follows |
| HtImReassembly.ReassemblyIsExact | src/main/java/com/jilali/im/HtImUpstreamConnector.java:522-533 | however each frame is cut into chunks, exactly the original frames are passed on, in order, and the buffer is empty |
| HtImReassembly.ReassemblyConserves | src/main/java/com/jilali/im/HtImUpstreamConnector.java:522-533 | for any chunks, flagged in any way, no byte is lost, repeated or moved |
| HtImConnector.ImConnector.OnBinary | src/main/java/com/jilali/im/HtImUpstreamConnector.java:522-533 | one call appends or completes a frame, and handles exactly the completed one |
| HtImConnector.ImConnector.HandlePacket | src/main/java/com/jilali/im/HtImUpstreamConnector.java:197-208 | the effects of a frame, in order, the fields it leaves, and whether an exception leaves it |
| HtImConnector.ImConnector.HandleMsgAck | src/main/java/com/jilali/im/HtImUpstreamConnector.java:322-327 | an event for a body that can be read |
| HtImConnector.ImConnector.HandleResponse | src/main/java/com/jilali/im/HtImUpstreamConnector.java:210-226 | a response that can be read goes to the lists or to the login |
| HtImConnector.ImConnector.HandleLogin | src/main/java/com/jilali/im/HtImUpstreamConnector.java:228-254 | each answer: banned, mismatched, a session key with its heartbeat and two sync requests, or nothing |
| HtImConnector.ImConnector.HandleList | src/main/java/com/jilali/im/HtImUpstreamConnector.java:390-472 | the loop replays each listed packet in order, and asks for the next page when there is one |
| HtImConnector.ImConnector.Send | src/main/java/com/jilali/im/HtImUpstreamConnector.java:480-496 | dropped while not connected |
| HtImConnector.ImConnector.Close | src/main/java/com/jilali/im/HtImUpstreamConnector.java:148-159 | the connection is given up and the scheduler shut down |
| HtImConnector.ImConnector.OnOpen | src/main/java/com/jilali/im/HtImUpstreamConnector.java:120-121 | connected from then on |
| HtImConnector.ImConnector.OnClose | src/main/java/com/jilali/im/HtImUpstreamConnector.java:536-537 | no longer connected |
| HtImConnector.ImConnector.Dispatch | src/main/java/com/jilali/im/HtImUpstreamConnector.java:337-369 | the effect of each kind of decoded push |
| HtImConnector.ImConnector.DecodeTypingStatus | src/main/java/com/jilali/im/HtImFrameDecoder.java:103-121 | decrypted if it can be, inflated if it can be, and typing when too short to tell |
| HtImDispatch.AckComesFirst | src/main/java/com/jilali/im/HtImUpstreamConnector.java:320-334 | the effects of a frame are its ack, if it is of type 0xF2 and the connector is connected, and then none that are acks |
| HtImDispatch.OneAckPerPush | src/main/java/com/jilali/im/HtImUpstreamConnector.java:320-334 | while connected exactly one ack for a complete frame of type 0xF2, none for any other and none while not connected, whatever else happens to it |
| HtImDispatch.WhenHandlingThrows | src/main/java/com/jilali/im/HtImUpstreamConnector.java:197-254 | an exception leaves the handling if and only if the declared length is negative and the frame is of a kind whose payload is copied, or a login response starts a session after the heartbeat's scheduler was shut down |
| HtImDispatch.WhatHandlingChanges | src/main/java/com/jilali/im/HtImUpstreamConnector.java:228-254 | the session key changes exactly by a login response that carries one; the connection can only be lost and the pump only be shut |
| HtImDispatch.SessionAfterShutdown | src/main/java/com/jilali/im/HtImUpstreamConnector.java:243-253 | a session that starts on a shut scheduler is shown as connected, starts no heartbeat, asks for nothing and ends in an exception; on any other it starts the heartbeat |
| HtImDispatch.ListedPushIsDispatched | src/main/java/com/jilali/im/HtImUpstreamConnector.java:400-407 | a listed packet on which live and replayed decoding agree has the effects of the live push |
| FrameLaws.EncryptedPushIsDispatched | src/main/java/com/jilali/im/HtImUpstreamConnector.java:330-334 | the effects of any encrypted push: its ack while connected, and then what its body is dispatched to |
| FrameLaws.PokeIsAnswered | src/main/java/com/jilali/im/HtImUpstreamConnector.java:343-347 | a poke is answered, while connected, with the request for what was missed: command 29967, flag 0xF0, from 0 |
| FrameLaws.ReceiptIsShown | src/main/java/com/jilali/im/HtImUpstreamConnector.java:339-342 | a receipt shows the UUID its bytes 2 to 38 are |
| FrameLaws.CompressedPushIsDelivered | src/main/java/com/jilali/im/HtImUpstreamConnector.java:330-355 | a compressed push is acknowledged and what its text parses to is handed on with its header |
| FrameLaws.SentAckIsShown | src/main/java/com/jilali/im/HtImUpstreamConnector.java:320-328 | a frame of command 16386 shows the id, sequence and prefix that were sent, and is itself acknowledged |
| FrameLaws.TypingIsRead | src/main/java/com/jilali/im/HtImFrameDecoder.java:103-121 | the status is the third 16-bit field of the body, read little-endian: typing if and only if it is 1 |
| FrameLaws.ShortTypingIsTyping | src/main/java/com/jilali/im/HtImFrameDecoder.java:117-120 | a body too short for it counts as typing |
| FrameLaws.CompressedTypingIsRead | src/main/java/com/jilali/im/HtImFrameDecoder.java:113-116 | a compressed body is inflated first, if it inflates |
| FrameLaws.EncryptedTypingIsRead | src/main/java/com/jilali/im/HtImFrameDecoder.java:105-120 | an encrypted one is decrypted first; when it is too short for the status, the trailer fills it up and it counts as not typing |
| FrameLaws.TypingIsShown | src/main/java/com/jilali/im/HtImUpstreamConnector.java:371-375 | a frame of type 0xF5 and command 16407 shows its sender as typing, or not |
| FrameLaws.CompressedResponseIsParsed | src/main/java/com/jilali/im/HtImFrameDecoder.java:44-57 | a compressed response is what its inflated text parses to |
| FrameLaws.ResponseIsHandled | src/main/java/com/jilali/im/HtImUpstreamConnector.java:210-226 | commands 16454 and 29968 go to the lists, and all but the pong and 16386 to the login |
| FrameLaws.PageIsHandled | src/main/java/com/jilali/im/HtImUpstreamConnector.java:390-472 | a page is dispatched, and while connected the next one is asked for from its last id: with 16453 and 0xF2 after 16454, with 29967 and 0xF0 after 29968 |
| FrameLaws.ReplayedConcat | src/main/java/com/jilali/im/HtImUpstreamConnector.java:400-407 | the packets of a list are dispatched in order, each by itself |
| FrameLaws.SessionStarts | src/main/java/com/jilali/im/HtImUpstreamConnector.java:243-253 | a login with a session key keeps it, shows the session, starts the heartbeat, and asks for what was missed with 29967 and 0xF0, then 16453 and 0xF2 |
| FrameLaws.LoginIsRefused | src/main/java/com/jilali/im/HtImUpstreamConnector.java:228-241 | banned or mismatched is shown and the connector closed, unless it can log in again |
| FrameLaws.UnreadableResponseIsIgnored | src/main/java/com/jilali/im/HtImUpstreamConnector.java:216-217 | a response that is not an object, or that the parser refuses, has no effect |
| FrameLaws.EmptyResponseIsIgnored | src/main/java/com/jilali/im/HtImUpstreamConnector.java:228-254 | nor has one without a list, without a session and a refusal, or an empty last page |
| FrameLaws.OthersAreIgnored | src/main/java/com/jilali/im/HtImUpstreamConnector.java:197-214 | a pong, a frame of another type, and one of the typing type with another command have no effect |
| HtImConnector.AcksOfRun | src/main/java/com/jilali/im/HtImUpstreamConnector.java:320-334 | over any frames in any chunks, with any changes of key, connection and pump in between, the acks are those of the original pushes met while connected, in order |
| HtImConnector.PushHeader | src/main/java/com/jilali/im/HtImUpstreamConnector.java:330-334 | the header of an encrypted and framed push is read as written, and its payload is taken whole |
| HtImConnector.PushIsLive | src/main/java/com/jilali/im/HtImUpstreamConnector.java:330-334 | its live decoding is the parse of the text, trimmed at the end |
| HtImConnector.PushIsHandled | src/main/java/com/jilali/im/HtImUpstreamConnector.java:330-334 | an encrypted and framed JSON push is acknowledged once while connected and its parsed text handed on |
| HtImConnector.PushIsDelivered | src/main/java/com/jilali/im/HtImUpstreamConnector.java:517-533 | the same from the sender through any chunking: cipher, framing, reassembly, ack and decoding together |
| SequentialSender.Sender.Enqueue | src/main/java/com/jilali/core/ws/SequentialSender.java:18-23 | the new stage is chained to the newest future and starts at once when that one is done |
| SequentialSender.Sender.Reset | src/main/java/com/jilali/core/ws/SequentialSender.java:26-28 | the next stage is chained to nothing; running ones are left alone |
| SequentialSender.Sender.OnCompletion | src/main/java/com/jilali/core/ws/SequentialSender.java:19-22 | a finished send reports its failure and starts the stage behind it; `SenderOutcomes` ties the reports to the outcomes |
| SequentialSender.Sender.Fire | src/main/java/com/jilali/core/ws/SequentialSender.java:19-22 | a started send that finishes at once starts the next in the same call, and so on: the loop equals the recursive firing of futures |
| SequentialSender.DependentIsTheOnly | src/main/java/com/jilali/core/ws/SequentialSender.java:19-22 | no future has more than one stage chained to it |
| SequentialSender.StartKeeps | src/main/java/com/jilali/core/ws/SequentialSender.java:18-23 | starting a stage whose turn it is keeps the chain invariant, through every send that finishes at once |
| SequentialSender.CompleteKeeps | src/main/java/com/jilali/core/ws/SequentialSender.java:18-23 | completing a send in flight keeps the chain invariant |
| SequentialSender.EnqueueKeeps | src/main/java/com/jilali/core/ws/SequentialSender.java:18-23 | queueing keeps the chain invariant |
| SequentialSender.RunKeepsInv | src/main/java/com/jilali/core/ws/SequentialSender.java:15-28 | the invariant holds in every run of enqueues, completions and resets |
| SequentialSender.SendsAreSequential | src/main/java/com/jilali/core/ws/SequentialSender.java:18-23 | in every run and epoch: starts in queue order, each reported failure once and before the next start, nothing twice, and the log says exactly what the states say |
| SequentialSender.OneInFlight | src/main/java/com/jilali/core/ws/SequentialSender.java:8-12 | in every run an epoch has at most one send in flight |
| SequentialSender.WaitingIsBehindOne | src/main/java/com/jilali/core/ws/SequentialSender.java:17-23 | in every run no send waits without an earlier one of its epoch in flight: none stays queued while nothing is |
| SequentialSender.ResetLetsSendsOverlap | src/main/java/com/jilali/core/ws/SequentialSender.java:25-28 | after a reset a new send starts beside one still in flight |
| SenderOutcomes.ReportedIffFailed | src/main/java/com/jilali/core/ws/SequentialSender.java:18-23 | in every state of every run a send is reported as failed if and only if it is done and failed |
| SenderOutcomes.CompletionIsReported | src/main/java/com/jilali/core/ws/SequentialSender.java:22-22 | the completion of a send in flight is reported if and only if it failed, and settles the send with its outcome |
| SenderOutcomes.EnqueueMoves | src/main/java/com/jilali/core/ws/SequentialSender.java:18-23 | queueing settles no send that was queued before with another outcome than its own |
| SenderOutcomes.StatusFollows | src/main/java/com/jilali/core/ws/SequentialSender.java:18-23 | in every run a send is done with an outcome if and only if that is the outcome it completed with, by a callback or at once |
| SenderOutcomes.FailuresAreReported | src/main/java/com/jilali/core/ws/SequentialSender.java:22-22 | in every run `onError` is called for exactly the sends that failed, by a callback or at once |
| ReconnectStrategy.BoundFor | src/main/java/com/jilali/platform/reconnect/ReconnectStrategy.java:39-47 | for every attempt and all durations, the loop in wrapping 64-bit arithmetic ends at the cap or at the value of its turns, as `Shifted` defines them |
| ReconnectStrategy.BoundsAreExact | src/main/java/com/jilali/platform/reconnect/ReconnectStrategy.java:39-47 | the bounds of all attempts up to n are min(cap, base * 2^attempt) if and only if no turn before n doubles a number of at least 2^62 that is still below the cap |
| ReconnectStrategy.SmallCapsAreExact | src/main/java/com/jilali/platform/reconnect/ReconnectStrategy.java:39-47 | for every cap up to 2^62 ms and every base they are |
| ReconnectStrategy.HugeDurationsOverflow | src/main/java/com/jilali/platform/reconnect/ReconnectStrategy.java:44-44 | a base and a cap for which the second attempt has a negative bound |
| ReconnectStrategy.BoundIsMonotone | src/main/java/com/jilali/platform/reconnect/ReconnectStrategy.java:39-47 | the bound never falls from one attempt to a later one |
| ReconnectStrategy.Backoff.NextDelay | src/main/java/com/jilali/platform/reconnect/ReconnectStrategy.java:50-54 | whatever is drawn, the k-th delay since the last reset is within the k-th bound, for k below 2^31 |
| ReconnectStrategy.Backoff.Reset | src/main/java/com/jilali/platform/reconnect/ReconnectStrategy.java:57-59 | the next delay is bounded as the first |
| ReconnectStrategy.TotalWait | src/main/java/com/jilali/platform/reconnect/ReconnectStrategy.java:50-54 | n failures in a row wait at most the sum of the first n bounds, hence at most n caps and at most base * (2^n - 1) |
| LiveHubConnector.StepKeepsInv | src/main/java/com/jilali/realtime/HtLiveHubUpstreamConnector.java:87-144 | every callback and method keeps the invariant |
| LiveHubConnector.RunKeepsInv | src/main/java/com/jilali/realtime/HtLiveHubUpstreamConnector.java:87-144 | the invariant holds in every run |
| LiveHubConnector.ConnectorIsSingle | src/main/java/com/jilali/realtime/HtLiveHubUpstreamConnector.java:87-144 | in every run from one connect: at most one of timer, attempt and unclosed socket, and exactly one while open unless the first attempt failed or a socket erred; the two close flags agree; connected counts only on the live socket; the attempts delays are drawn for climb by one or start over; `LiveHubLaws.DelaysCountLosses` gives each |
| LiveHubLaws.AttemptIsLosses | src/main/java/com/jilali/realtime/HtLiveHubUpstreamConnector.java:111-131 | the backoff attempt is the number of times the upstream was lost since `connect` or the last socket that opened |
| LiveHubLaws.DelaysCountLosses | src/main/java/com/jilali/realtime/HtLiveHubUpstreamConnector.java:119-131 | in every run a retry is scheduled exactly when an open connector loses its upstream, once, and its delay is drawn for that number |
| LiveHubLaws.SecondDelayGrows | src/main/java/com/jilali/realtime/HtLiveHubUpstreamConnector.java:119-131 | a run of two losses in a row: delays for the attempts 0 and 1 |
| LiveHubLaws.SocketIsGreeted | src/main/java/com/jilali/realtime/HtLiveHubUpstreamConnector.java:104-116 | in every run a socket that opens on an open connector becomes the current one and is sent the first frame |
| LiveHubLaws.FrameIsAnswered | src/main/java/com/jilali/realtime/HtLiveHubUpstreamConnector.java:178-225 | in every run an interval is answered with a heartbeat and starts the pump, a message id is acknowledged, each once and on the socket it came from, and nothing else is sent for a frame |
| LiveHubLaws.LossEndsSession | src/main/java/com/jilali/realtime/HtLiveHubUpstreamConnector.java:266-287 | in every run a closing socket ends session and heartbeat and tells the listener if and only if the connector is closed; an error is only reported |
| LiveHubLaws.CloseIsComplete | src/main/java/com/jilali/realtime/HtLiveHubUpstreamConnector.java:133-144 | in every run, closing a connected connector ends session and heartbeat, resets the sender once and sends one close frame, on the current socket |
| LiveHubConnector.EveryTickSends | src/main/java/com/jilali/realtime/HtLiveHubUpstreamConnector.java:219-221 | in every run a tick of the heartbeat pump queues one send on the current socket |
| LiveHubConnector.FrameThrows | src/main/java/com/jilali/realtime/HtLiveHubUpstreamConnector.java:178-217 | in every run a frame ends in an exception if and only if it is a heartbeat interval and the connector is closed, or it has an event object without a type |
| LiveHubConnector.UntypedFrameStrands | src/main/java/com/jilali/realtime/HtLiveHubUpstreamConnector.java:207-211 | in every run one such frame, whose socket then gets the error, leaves an open connector counting as connected, and no run from there opens another socket |
| LiveHubConnector.DisconnectsFollowClose | src/main/java/com/jilali/realtime/HtLiveHubUpstreamConnector.java:271-273 | in every run the disconnect listener is called only after close |
| LiveHubConnector.EverySocketIsClosed | src/main/java/com/jilali/realtime/HtLiveHubUpstreamConnector.java:104-109 | in every run, once closed, every socket still to end has been sent a close frame, also one that opened later |
| LiveHubConnector.AnnouncedWhenHeard | src/main/java/com/jilali/realtime/HtLiveHubUpstreamConnector.java:190-194 | while open, `announcedConnected` says exactly whether a heartbeat interval arrived on any socket |
| LiveHubConnector.FirstIntervalIsAnnounced | src/main/java/com/jilali/realtime/HtLiveHubUpstreamConnector.java:190-194 | in every run from one connect a heartbeat interval is announced if and only if the connector is not closed and none arrived before, on any socket |
| LiveHubConnector.RetryIsAnnounced | src/main/java/com/jilali/realtime/HtLiveHubUpstreamConnector.java:190-194 | a run in which the socket of a retry is announced, the first having closed in silence |
| LiveHubConnector.RetryIsNotAnnounced | src/main/java/com/jilali/realtime/HtLiveHubUpstreamConnector.java:190-194 | a run in which the socket of a retry is connected and not announced |
| LiveHubConnector.ClosedForGood | src/main/java/com/jilali/realtime/HtLiveHubUpstreamConnector.java:134-144 | after close: never connected again, no new timer or attempt, nothing sent or announced, by callers, callbacks or the heartbeat |
| LiveHubConnector.ClosedDrains | src/main/java/com/jilali/realtime/HtLiveHubUpstreamConnector.java:104-131 | after close every attempt, timer and end of a socket brings the end nearer; frames change nothing of what is left |
| LiveHubConnector.ErrorStrands | src/main/java/com/jilali/realtime/HtLiveHubUpstreamConnector.java:280-287 | after a socket error the connector counts as connected, with its heartbeat as it was and nothing left that would reconnect |
| LiveHubConnector.StrandedForGood | src/main/java/com/jilali/realtime/HtLiveHubUpstreamConnector.java:280-287 | and stays so: no run from there opens another socket |
| LiveHubConnector.Connector.constructor | src/main/java/com/jilali/realtime/HtLiveHubUpstreamConnector.java:67-71 | a new connector satisfies the invariant |
| LiveHubConnector.Connector.Connect | src/main/java/com/jilali/realtime/HtLiveHubUpstreamConnector.java:87-93 | the whole new state, with the backoff started over |
| LiveHubConnector.Connector.Send | src/main/java/com/jilali/realtime/HtLiveHubUpstreamConnector.java:227-232 | queued on the current socket, and only while connected |
| LiveHubConnector.Connector.ReconnectInBackground | src/main/java/com/jilali/realtime/HtLiveHubUpstreamConnector.java:119-131 | a timer, with a delay drawn for the next backoff attempt, unless closed; `LiveHubLaws` counts the attempts |
| LiveHubConnector.Connector.OnAttemptSuccess | src/main/java/com/jilali/realtime/HtLiveHubUpstreamConnector.java:104-116 | a late socket is sent a close frame and the pump shut down; otherwise it becomes the current one, the backoff starts over and the first frame is sent |
| LiveHubConnector.Connector.OnAttemptFailure | src/main/java/com/jilali/realtime/HtLiveHubUpstreamConnector.java:125-129 | only a retry schedules another retry |
| LiveHubConnector.Connector.OnTimer | src/main/java/com/jilali/realtime/HtLiveHubUpstreamConnector.java:123-125 | the timer starts an attempt unless closed meanwhile |
| LiveHubConnector.Connector.OnClose | src/main/java/com/jilali/realtime/HtLiveHubUpstreamConnector.java:266-278 | the heartbeat stops; the listener is told after an intentional close; a retry is scheduled after any other |
| LiveHubConnector.Connector.StopPump | src/main/java/com/jilali/core/ws/HeartbeatPump.java:37-44 | the schedule is cancelled; a scheduler that was shut down stays so |
| LiveHubConnector.Connector.SendHeartbeat | src/main/java/com/jilali/realtime/HtLiveHubUpstreamConnector.java:219-221 | one send while connected |
| LiveHubConnector.Connector.OnError | src/main/java/com/jilali/realtime/HtLiveHubUpstreamConnector.java:280-287 | an error event, and nothing else |
| LiveHubConnector.Connector.HandleFrame | src/main/java/com/jilali/realtime/HtLiveHubUpstreamConnector.java:178-217 | the sends, the heartbeat schedule and the announcement of each kind of frame, and whether it throws, by a shut pump or an untyped event |
| LiveHubConnector.Connector.Close | src/main/java/com/jilali/realtime/HtLiveHubUpstreamConnector.java:133-144 | the whole new state, with the sender reset and the close frame on the current socket |
| SnakeToCamel.ToCamel | src/main/java/com/jilali/core/SnakeToCamelJson.java:40-62 | the two loops compute the renaming, whose result is renamed to itself |
| SnakeToCamel.FixedKeys | src/main/java/com/jilali/core/SnakeToCamelJson.java:40-62 | a key is left alone if and only if it has no underscore before a to z after its leading underscores |
| CamelLaws.BoundaryIsJoined | src/main/java/com/jilali/core/SnakeToCamelJson.java:48-60 | up to its first word boundary a key is kept, the boundary becomes the capital of its letter, and the rest is renamed by itself |
| CamelLaws.LeadingIsKept | src/main/java/com/jilali/core/SnakeToCamelJson.java:41-46 | underscores in front are kept as they are |
| CamelLaws.TwoWords | src/main/java/com/jilali/core/SnakeToCamelJson.java:40-62 | `user_id` becomes `userId` |
| CamelLaws.NotWords | src/main/java/com/jilali/core/SnakeToCamelJson.java:53-53 | `_id`, `foo_2`, `foo_Bar` and `foo_` stay |
| SnakeToCamel.ImagesAreFixed | src/main/java/com/jilali/core/SnakeToCamelJson.java:40-62 | renaming twice is renaming once |
| SnakeToCamel.ConvertIsIdempotent | src/main/java/com/jilali/core/SnakeToCamelJson.java:21-37 | converting twice is converting once, for every tree, colliding keys included |
| SnakeToCamel.KeysStayApartPairwise | src/main/java/com/jilali/core/SnakeToCamelJson.java:32-36 | the condition used below says that no two keys of the object have the same image |
| SnakeToCamel.ConvertFieldsApart | src/main/java/com/jilali/core/SnakeToCamelJson.java:32-36 | then the fields keep their order and number |
| SnakeToCamel.ValuesKeepTheirPaths | src/main/java/com/jilali/core/SnakeToCamelJson.java:21-37 | then the value at a path is found, converted, at the renamed path, and arrays keep their lengths |
| CamelLaws.ScalarsAreKept | src/main/java/com/jilali/core/SnakeToCamelJson.java:22-24 | a scalar is found unchanged, text and number, at the renamed path |
| CamelLaws.LastValueIsKept | src/main/java/com/jilali/core/SnakeToCamelJson.java:32-36 | of fields whose keys become the same, the last one's value is kept, converted |
| CamelLaws.FieldsKeepTheirOrder | src/main/java/com/jilali/core/SnakeToCamelJson.java:32-36 | the fields of a converted object come in the order in which their new keys came up, each once, collisions included |
| SnakeToCamel.FieldsAreConserved | src/main/java/com/jilali/core/SnakeToCamelJson.java:21-37 | a conversion never adds a field, and keeps their number if and only if renaming is injective on every object of the tree |
| CaptionFrames.OwnsType | src/main/java/com/jilali/realtime/HtCcNotifyMapper.java:109-134 | accepts exactly the captions, as defined once by `IsCaption` |
| CaptionFrames.Map | src/main/java/com/jilali/realtime/HtCcNotifyMapper.java:49-90 | yields an event exactly for malformed texts and for captions without a root heartbeat key, and the event its type names |
| CaptionFrames.HasOneOf | src/main/java/com/jilali/realtime/HtCcNotifyMapper.java:121-127 | the search through a marker set finds a marker if there is one |
| CaptionFrames.MapRoom | src/main/java/com/jilali/realtime/HtNotifyMapper.java:57-85 | the room mapper up to its table of types: an error event for malformed text, nothing for heartbeats and frames without an event object, the table's answer for typed ones, and an exception exactly for an event object without a type |
| CaptionFrames.RouteFrame | src/main/java/com/jilali/realtime/HtLiveHubUpstreamConnector.java:178-217 | a caption the room mapper declines yields exactly one caption event, well formed and without a room marker, and no other frame yields one; the room channel receives the room mapper's events and nothing else; no frame goes to both; an exception leaves exactly for an untyped event |
| CaptionFrames.OtherFieldsDoNotMatter | src/main/java/com/jilali/realtime/HtCcNotifyMapper.java:109-134 | a field that is neither a marker nor the room name never changes the channel |
| CaptionLaws.CaptionsAreToldByKeys | src/main/java/com/jilali/realtime/HtCcNotifyMapper.java:60-80 | a frame is a caption if and only if its type is 1 to 12 but not 8, it names a room, it has none of the nine room keys, and, for types 1, 4 and 12, one of the seven caption keys |
| CaptionLaws.EventsNameTheirTypes | src/main/java/com/jilali/realtime/HtCcNotifyMapper.java:146-170 | each event is given out for its own type only, and raw frames for 5, 7, 9, 10 and 11 |
| CaptionLaws.HeartbeatsAreTold | src/main/java/com/jilali/realtime/HtLiveHubUpstreamConnector.java:181-200 | an interval is the number given, or 60; a heartbeat time alone is the answer to a heartbeat |
| CaptionLaws.TypesAreTold | src/main/java/com/jilali/realtime/HtNotifyMapper.java:57-85 | an event object is typed or untyped by whether it has `notify_type`, and untyped only in a frame without a heartbeat key |
| RoomEventLaws.SubscribedKeepsCounts | src/main/java/com/jilali/realtime/RoomEventSource.java:73-78 | subscribing keeps counts, connectors and open subscriptions in step, and the counter reads 1 exactly for a room that had none |
| RoomEventLaws.LastSubscriberLeaves | src/main/java/com/jilali/realtime/RoomEventSource.java:163-170 | the teardown branch is taken exactly by the last open subscription |
| RoomEventLaws.UnsubscribedKeepsCounts | src/main/java/com/jilali/realtime/RoomEventSource.java:163-171 | unsubscribing keeps them in step |
| RoomEventLaws.StepKeepsCounts | src/main/java/com/jilali/realtime/RoomEventSource.java:61-184 | every step keeps them in step |
| RoomEventLaws.StepKeepsHub | src/main/java/com/jilali/realtime/RoomEventSource.java:61-190 | every step keeps each subscriber on its room's sink, the sinks of rooms distinct, and sinks without a connector uncompleted |
| RoomEventLaws.EventReachesItsRoom | src/main/java/com/jilali/realtime/RoomEventSource.java:259-271 | an event reaches every subscriber of its room whose sink is not completed, and nobody else |
| GhostStreams.UsersInserted | src/main/java/com/jilali/roomcontext/domain/service/JdbcGhostPublisherRepository.java:43-54 | a start adds the user to the room's list and to no other |
| GhostStreams.UsersDeleted | src/main/java/com/jilali/roomcontext/domain/service/JdbcGhostPublisherRepository.java:58-67 | a stop removes the user from the room's list and from no other |
| GhostStreams.DeletedIsDistinct | src/main/java/com/jilali/roomcontext/domain/service/JdbcGhostPublisherRepository.java:58-67 | the table keeps its primary key |
| GhostStreams.NewSubscriberShows | src/main/java/com/jilali/realtime/RoomEventSource.java:61-71 | the replay announces exactly the listed users, each once |
| GhostStreams.StartKeepsGhosts | src/main/java/com/jilali/roomcontext/api/UserController.java:93-107 | a start, heard or not, keeps every live stream in step with the table |
| GhostStreams.StopKeepsGhosts | src/main/java/com/jilali/roomcontext/api/UserController.java:111-124 | a stop, heard or not, keeps every live stream in step with the table |
| GhostStreams.StepKeepsInv | src/main/java/com/jilali/realtime/RoomEventSource.java:61-184 | every step keeps the whole invariant |
| GhostStreams.RunKeepsInv | src/main/java/com/jilali/realtime/RoomEventSource.java:61-184 | the invariant holds in every state of every run |
| GhostStreams.SubscribersSeeTheGhosts | src/main/java/com/jilali/realtime/RoomEventSource.java:61-121 | in every state of every run, the synthetic joins and quits a live subscriber received leave exactly the users `listByRoom` lists, and each user's alternate, a join first |
| VisibleGhosts.ShownIsExact | src/main/java/com/jilali/realtime/RoomEventSource.java:192-201 | a client, which cannot tell synthetic events from others, agrees with them all along its stream if and only if the upstream sent no quit of a listed ghost and no ghost's join of another user |
| VisibleGhosts.ClientsShowTheGhosts | src/main/java/com/jilali/realtime/RoomEventSource.java:61-121 | in every state of every run, a live subscriber's client then shows exactly the users `listByRoom` lists |
| GhostStreams.RoomsAreAccountedFor | src/main/java/com/jilali/realtime/RoomEventSource.java:163-184 | in every state of every run, the rooms with a connector are those with subscribers, each count is their number, and connectors opened less closed is the size of the map |
| GhostStreams.FirstSubscriberIsLive | src/main/java/com/jilali/realtime/RoomEventSource.java:76-114 | the first subscriber of a room always gets a live sink, even one left behind by a late event |
| GhostStreams.CompletedStreamIsSilent | src/main/java/com/jilali/realtime/RoomEventSource.java:81-89 | a stream whose sink completed hears nothing more, whatever happens, until it is closed |
| UpstreamLaws.OpeningKeepsAttached | src/main/java/com/jilali/realtime/RoomEventSource.java:76-98 | the new connector is attached to the sink its room has or is given |
| UpstreamLaws.ClosingKeepsAttached | src/main/java/com/jilali/realtime/RoomEventSource.java:170-173 | a connector that goes leaves its sink completed |
| UpstreamLaws.StepKeepsAttached | src/main/java/com/jilali/realtime/RoomEventSource.java:61-184 | every step keeps each connector current for its room, or its sink completed |
| UpstreamLaws.FailureEndsItsRoom | src/main/java/com/jilali/realtime/RoomEventSource.java:103-108 | in every state of every run, a failed connection ends a live stream if and only if it is of the current connector of the stream's room |
| UpstreamLaws.DisconnectEndsNoStream | src/main/java/com/jilali/realtime/RoomEventSource.java:81-89 | in every state of every run, the disconnect callback of a connector that left the map, which is when it is closed, ends no live stream |
| UpstreamLaws.StateIsCurrent | src/main/java/com/jilali/realtime/RoomEventSource.java:156-161 | the state kept for a room is the last one emitted for it since its teardown |
| UpstreamLaws.SubscribedRoomsHaveState | src/main/java/com/jilali/realtime/RoomEventSource.java:98-98 | a room with subscribers always has a state |
| UpstreamLaws.LaterSubscriberIsToldTheState | src/main/java/com/jilali/realtime/RoomEventSource.java:116-120 | who joins a room with subscribers is told the last state emitted, and there is one |
| DeliveryLaws.StepIsHeard | src/main/java/com/jilali/realtime/RoomEventSource.java:61-222 | in every state of every run each step adds to each open stream exactly what its room was sent, upstream events, errors, ghosts and kicks, if it is live, and nothing otherwise; it ends the stream if and only if the room's own connector fails or disconnects |
| DeliveryLaws.StreamIsWhatWasHeard | src/main/java/com/jilali/realtime/RoomEventSource.java:61-222 | over every run an open stream holds what it held before and then all that its room was sent, in order |
| DeliveryLaws.StreamOpens | src/main/java/com/jilali/realtime/RoomEventSource.java:61-121 | a new stream holds a ghost's join for each listed user, in order, and, for a later subscriber, the state kept |
| DeliveryLaws.FirstSubscriptionConnects | src/main/java/com/jilali/realtime/RoomEventSource.java:73-98 | in every run a first subscriber opens a connector with a number of its own, attached for that room, and the state kept is "connecting"; a later one opens none |
| DeliveryLaws.ReplayAnnouncesEach | src/main/java/com/jilali/realtime/RoomEventSource.java:67-71 | the replay is one synthetic ghost join per listed user |
| RosterLaws.TableFollowsCommands | src/main/java/com/jilali/roomcontext/api/UserController.java:93-124 | in every run a user is in the table if and only if their last command for the room was a start |
| RosterLaws.StartedIsLast | src/main/java/com/jilali/roomcontext/domain/service/JdbcGhostPublisherRepository.java:43-54 | who starts is listed last in their room, and other rooms' lists stay |
| RosterLaws.StoppedIsCutOut | src/main/java/com/jilali/roomcontext/domain/service/JdbcGhostPublisherRepository.java:58-67 | who stops is cut out of the list, and the rest keeps its order |
| AudienceRevisions.StepKeepsRevision | src/main/java/com/jilali/realtime/RoomEventSource.java:255-271 | every step keeps a room's revision equal to its count of roster changes |
| AudienceRevisions.RevisionCountsChanges | src/main/java/com/jilali/realtime/RoomEventSource.java:250-268 | in every state of every run, the revision is the number of roster-changing events since the room was last torn down |
| AudienceRevisions.AffectingSplits | src/main/java/com/jilali/realtime/RoomEventSource.java:174-176 | how that number is made up across a teardown |
| AudienceRevisions.ReconcileReportsChanges | src/main/java/com/jilali/roomcontext/api/RoomController.java:144-155 | a client that returns an earlier revision is told of a change if and only if one occurred since, or, across a teardown, if and only if more followed it than the client had counted |
| RosterLaws.RevisionMoves | src/main/java/com/jilali/realtime/RoomEventSource.java:255-286 | in every run each step raises a room's revision by one for a user who joins or quits, a seat taken, a ghost's start or a kick that somebody hears, by nothing for any other, a ghost's stop among them, and clears it when the last subscriber leaves |
| AudienceRevisions.LateEventsAreCounted | src/main/java/com/jilali/realtime/RoomEventSource.java:245-253 | a run, from any table, after which a room without subscribers has revision 1 |
| AudienceRevisions.ChangeIsMissed | src/main/java/com/jilali/roomcontext/api/RoomController.java:144-155 | a run in which a client that kept revision 1 over a teardown is told that nothing changed, although a user joined since |
| RoomEventSources.GhostPublisherRepository.Start | src/main/java/com/jilali/roomcontext/domain/service/JdbcGhostPublisherRepository.java:43-54 | the new table, and true exactly when the row was not there |
| RoomEventSources.GhostPublisherRepository.Stop | src/main/java/com/jilali/roomcontext/domain/service/JdbcGhostPublisherRepository.java:58-67 | the new table, and true exactly when the row was there, by the primary key |
| RoomEventSources.GhostPublisherRepository.ListUsers | src/main/java/com/jilali/roomcontext/domain/service/JdbcGhostPublisherRepository.java:101-117 | the loop lists the users of the room in table order |
| RoomEventSources.DeletedLength | src/main/java/com/jilali/roomcontext/domain/service/JdbcGhostPublisherRepository.java:64-64 | by the primary key a delete removes one row or none |
| RoomEventSources.RoomEventSource.constructor | src/main/java/com/jilali/realtime/RoomEventSource.java:47-59 | all maps empty: the initial state of a run |
| RoomEventSources.RoomEventSource.SinkFor | src/main/java/com/jilali/realtime/RoomEventSource.java:186-190 | the room's sink, created when absent |
| RoomEventSources.RoomEventSource.EmitWithRevisionBump | src/main/java/com/jilali/realtime/RoomEventSource.java:259-271 | the whole new state: revision, sinks, streams and history; who hears it is `DeliveryLaws.StepIsHeard` |
| RoomEventSources.RoomEventSource.EmitAndTrackState | src/main/java/com/jilali/realtime/RoomEventSource.java:156-161 | the same for an event of the upstream, with the connection state kept |
| RoomEventSources.RoomEventSource.EmitSynthetic | src/main/java/com/jilali/realtime/RoomEventSource.java:202-222 | nothing for a room without subscribers, and otherwise an emission |
| RoomEventSources.RoomEventSource.ReplayGhosts | src/main/java/com/jilali/realtime/RoomEventSource.java:67-71 | one join per listed user, in order |
| RoomEventSources.RoomEventSource.Subscribe | src/main/java/com/jilali/realtime/RoomEventSource.java:61-121 | the whole new state for a first and for a later subscriber |
| RoomEventSources.RoomEventSource.Unsubscribe | src/main/java/com/jilali/realtime/RoomEventSource.java:163-184 | the whole new state, with the teardown when the count is used up |
| RoomEventSources.RoomEventSource.CloseSession | src/main/java/com/jilali/realtime/RoomSocketController.java:88-97 | the stream is disposed of and the room given back |
| RoomEventSources.RoomEventSource.OnConnectFailure | src/main/java/com/jilali/realtime/RoomEventSource.java:103-108 | the error goes to the captured sink, which then completes |
| RoomEventSources.RoomEventSource.OnDisconnect | src/main/java/com/jilali/realtime/RoomEventSource.java:83-86 | the captured sink completes |
| RoomEventSources.RoomEventSource.AudienceRevision | src/main/java/com/jilali/realtime/RoomEventSource.java:250-253 | the revision, zero without a counter |
| RoomEventSources.Controllers.StartGhostPublish | src/main/java/com/jilali/roomcontext/api/UserController.java:93-107 | the answer and the whole new state; nothing changes without a caller |
| RoomEventSources.Controllers.StopGhostPublish | src/main/java/com/jilali/roomcontext/api/UserController.java:111-124 | the answer and the whole new state; nothing changes without a caller |
| RoomEventSources.Controllers.Kick | src/main/java/com/jilali/roomcontext/api/UserController.java:137-159 | the answer and the whole new state |
| RoomEventSources.Controllers.AudienceReconcile | src/main/java/com/jilali/roomcontext/api/RoomController.java:144-155 | the revision, and whether it has grown |

## Left out

- HtImConnector.ImConnector.HandleLogin: the field lookups in a response, here and for its list of packets, are parameters; the new login itself, which goes on in the background, is one effect.
- HtImConnector.ImConnector.Close: the sender reset and the close frame are one effect with it.
- HtImConnector.ImConnector.OnOpen: the login packet, the backoff and the reconnects of this connector are left out.
- HtImConnector.AcksOfRun: a run goes on after a frame whose handling throws, while the socket library may end the socket there.
- HtImPacketFramer.PacketFramer.NextSeq: the counter does not wrap at 2^32; that is a multiple of the 2^16 that is kept, so no sequence number differs.
- AudienceRevisions.RevisionCountsChanges: the counter does not wrap at 2^31.
- CaptionFrames.Map: an event carries the notify info it is built from, not the fields looked up in it, and building it never fails.
- CaptionFrames.MapRoom: the table of types is a parameter; it runs inside a catch-all, after a check made of lookups with defaults. `HtImNotifyMapper` is made of such lookups throughout.
- RoomEventSources.RoomEventSource.Subscribe: streams are lists of deliveries; backpressure, and the gap between the replay and the attachment to the sink, are not modelled.
- RoomEventSources.GhostPublisherRepository.ListUsers: rows are in insertion order, which SQLite leaves open for equal timestamps; the results about ghosts are about sets. `last_seen` and the purge are left out.
- HtImConnector.ImConnector.Dispatch: what the notify mapper makes of a parsed push, and the boolean that only counts events for a log line, are left out; the effect is that the mapper is called with the tree and the header.
- LiveHubConnector.Connector.Connect: the user, the room and the visitor flag are fixed for a connector and are not carried.
- LiveHubConnector.Connector.ReconnectInBackground: the delay is its backoff attempt; the value drawn for an attempt is bounded by `ReconnectStrategy.Backoff.NextDelay`.
- LiveHubConnector.Connector.HandleFrame: room and caption events are in `CaptionFrames.RouteFrame`; text frames are put together from chunks as binary ones are, which is modelled for those; the heartbeat's two intervals are kept only as the session's number of seconds.
- LiveHubConnector.Connector.Close: a close frame that cannot be sent is ignored by the program and counts as sent here.
- RoomEventSources.RoomEventSource.EmitSynthetic: touching `last_seen` for a ghost's join is left out with the purge it serves.
- RoomEventSources.RoomEventSource.Unsubscribe: the caption sink and its count, dropped with the room's, are left out.
- RoomEventSources.RoomEventSource.CloseSession: the caption subscription, and sessions rejected at opening, whose close also calls `unsubscribe`, are left out.
- RoomEventSources.RoomEventSource.OnDisconnect: completing the caption sink is left out.
- RoomEventSources.Controllers.Kick: the nickname, manager name and room name the event carries are left out.
- RoomEventSources.Controllers.AudienceReconcile: the roster fetched from the upstream with a changed answer is left out.
- QqTeaCipher.Encrypt: the block and chain loops are the same text as in `TeaCipher` and are modelled once.
- Null arguments: a missing session key is an option value, other null byte arrays and null trees are left out.
- Text is its bytes: NUL removal and `trim` agree with Java's on valid UTF-8, and the UUID pattern is plain ASCII.
- Nonblank room names and positive user ids, which `GhostPublisherEntity` checks when a row is read.
- The caption subscriptions (`subscribeCc`, `unsubscribeCc`, `ccSinks`), which follow the room maps and are torn down with them.
- The relogin path of `HtImUpstreamConnector`, its own reconnects, and `SchedulerLockRepository` with the cleanup jobs.
- The distribution of the jitter, thread timing and wall-clock time.
- HTTP controllers, upstream clients, DTO records, filters and error handlers; AES, X25519, MD5 and HMAC are library calls.
