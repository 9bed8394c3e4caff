# wh proxy core in Dafny

This project models the core of `wh`, a small Go proxy toolkit, together
with two C demonstration programs from the same repository. Each part of the
core has its own Dafny module:

- **DES string cipher** (`self-report/des.go`), in `des.dfy` and `des_string.dfy`.
  `des.dfy` covers the block cipher: the initial and final permutations, the
  E expansion, the S-boxes, the P permutation, the key schedule and the
  Feistel rounds of `Enc`/`Dec`. `des_string.dfy` covers the string layer:
  `StrToBt`, `GetKeyBytes`, the hex conversions and `StrEnc`, which encrypts
  every four-character group of the data under the blocks of up to three
  keys in turn.
- **SOCKS5** (`pkg/proxy/socks5`), in `sock_frame.dfy`, `sock_auth.dfy`,
  `sock_conn.dfy` and `sock_server.dfy`. These model frame parsing and
  serialisation (RFC 1928 and RFC 1929, deviations included), method
  selection, the phases of a connection and the server's connection table.
- **HTTP CONNECT tunnels**, in `http_tunnel.dfy`, `http_svr.dfy` and
  `proxy_http.dfy`. They model the two copies of the tunnel connection and
  its server: `pkg/proxy/http-svr` and `pkg/proxy/http_conn.go` /
  `http_server.go`. The shared header logic is in `http_header.dfy` (Go's
  `http.Header`).
- **Plain TCP servers**, in `tcp_server.dfy` (`pkg/proxy/tcp/server.go`) and
  `http_proxy_server.dfy` (`proxy/http/server.go`).
- **Reverse and forward HTTP proxies** (`pkg/proxy/http.go` and
  `pkg/proxy/http1.go`), in `http_pxy.dfy` and `http_pxy1.dfy`. The routing of
  `net/http`'s ServeMux that they rely on is in `serve_mux.dfy`.
- **Server table** (`svrs/svrs.go`), in `svrs.dfy`.
- **Level-filtering log writer** (`pkg/c-log/log..go`), in `clog.dfy`.
- **C argv dispatchers** (`pkg/auth/basic/constant.c` and `array.c`), in
  `constant_c.dfy` and `array_c.dfy`, with `strncmp` in `cstring.dfy`.

`wrappers.dfy` (Option/Result), `text.dfy` (numerals, split/join, search,
`Sscanf("%s%s")`) and `net.dfy` (`SplitHostPort`, `JoinHostPort`, big-endian
ports) hold the library behaviour the core relies on.

The model takes the form of the source. Loops and in-place updates become
methods with loop invariants, each proved equal to a specification function.
Objects whose fields change become classes. Pure logic becomes functions.
Network reads, dials, write results and clocks become parameters of the
operations that use them.

Behaviours of the code worth noting:

- `constant.c` and `array.c` match any prefix of a command name, not the
  exact name.
- `yunsuanfu` prints 22 for `c = a--`, because the earlier `a++` already
  raised `a` to 22.
- `ReadAuthReq` has already stored the user name when it fails on a short
  password.
- Two SOCKS5 frames make the parser panic: an auth request with a
  non-empty user name and a zero password length (the slice at
  `sock_frame.go:236` has its low bound above its high bound), and a
  connect request with fewer than two bytes after the address (the
  `binary.BigEndian.Uint16` calls at `sock_frame.go:340`, `:349` and `:358`).
  Nothing recovers: `serveAccept` runs `Start` in its own goroutine
  (`sock_server.go:62`, `:90`), so the whole process ends. The model carries
  such a panic as a `Completion` value (`Normal` or `Panic` with Go's
  runtime message) through every phase of `Start`, and the server records
  it in `crashed` and stops.

Two functions exist only so that properties can be stated, and have no
counterpart in `self-report/des.go`: `DesString.ParseBits` reads binary
digits back as bits, and `DesString.DecryptChain` runs the block cipher's
`Dec` over the key blocks in reverse order. They appear in the table only
through the lemmas that use them.

## Model

| member | source | states |
|---|---|---|
| Des.XorBits | self-report/des.go:606-613 | the result has the first argument's length (entry i is `a[i] ^ b[i]`) |
| Des.Xor | self-report/des.go:606-613 | the loop computes XorBits of the two arguments |
| Des.XorTwice | self-report/des.go:606-613 | Xor(Xor(a, b), b) == a |
| Des.XorCancel | self-report/des.go:606-613 | Xor(a, Xor(a, b)) == b for arrays of equal length |
| Des.InitIndex | self-report/des.go:615-634 | every output position of the initial permutation reads an input position below 64 |
| Des.InitIndexAt | self-report/des.go:618-627 | output bit 8i+k takes input bit 8(7-k)+2i+1, and output bit 8i+k+32 takes input bit 8(7-k)+2i |
| Des.InitPerm | self-report/des.go:615-634 | the initial permutation yields 64 entries |
| Des.InitPermute | self-report/des.go:615-634 | the nested `for i < 4` / `for j >= 0` loops compute InitPerm |
| Des.FinalIndex | self-report/des.go:309-376 | every output position of FinallyPermute reads an input position below 64 |
| Des.FinallyPermute | self-report/des.go:309-376 | the final permutation yields 64 entries |
| Des.InitAfterFinalIndex | self-report/des.go:309-376 | the final table undoes the initial one, position by position |
| Des.FinalAfterInitIndex | self-report/des.go:615-634 | the initial table undoes the final one, position by position |
| Des.FinallyPermuteInvertsInit | self-report/des.go:309-376 | FinallyPermute(InitPermute(x)) == x for every 64-entry x |
| Des.InitPermuteInvertsFinal | self-report/des.go:615-634 | InitPermute(FinallyPermute(y)) == y for every 64-entry y |
| Des.PIndex | self-report/des.go:378-414 | every output position of PPermute reads one of the 32 input positions |
| Des.PPermute | self-report/des.go:378-414 | P yields 32 entries |
| Des.PInverseIndexes | self-report/des.go:380-411 | the P table and its reverse table are mutually inverse on 0..31 |
| Des.PPermuteIsPermutation | self-report/des.go:378-414 | P loses and duplicates nothing: reading its output through the inverse table gives the input back, and the reverse also holds |
| Des.ExpandedGroup | self-report/des.go:588-601 | one group of the expansion has six bits |
| Des.ExpandedGroups | self-report/des.go:587-602 | the first n groups hold 6n bits |
| Des.Expand | self-report/des.go:584-604 | the E expansion yields 48 entries |
| Des.ExpandedGroupsPrefix | self-report/des.go:587-602 | the groups written by the first k passes of the loop are not changed by later passes |
| Des.ExpandGroup | self-report/des.go:587-602 | group i is bits 4i..4i+3, framed by bit 4i-1 (31 for the first group) and bit 4i+4 (0 for the last group) |
| Des.ExpandPermute | self-report/des.go:584-604 | the loop computes Expand |
| Des.ExpandStep | self-report/des.go:588-601 | one pass of the loop writes group i right after the groups before it |
| Des.SBoxTable | self-report/des.go:416-476 | each of the eight S-boxes has four rows |
| Des.SRow | self-report/des.go:480 | the row index, 2·b0+b5, is below 4 |
| Des.SCol | self-report/des.go:481-484 | the column index, b1b2b3b4 in binary, is below 16 |
| Des.GetBoxBinary | self-report/des.go:529-582 | a value 0..15 is spelled as its four binary digits, most significant first; any other value gives "" |
| Des.ParseDigit | self-report/des.go:513-523 | ParseInt of "0" is 0 and of "1" is 1 |
| Des.SBox | self-report/des.go:416-527 | the S-box stage yields 32 bits |
| Des.SBoxGroup | self-report/des.go:477-524 | bits 4m..4m+3 are the binary of the S-box entry that group m selects |
| Des.SBoxNibble | self-report/des.go:477-524 | bits 4m..4m+3 are the big-endian binary of S_{m+1}[2·b0+b5][b1b2b3b4], with b0..b5 being group m |
| Des.SBoxPermute | self-report/des.go:416-527 | the `for m` loop computes SBox |
| Des.SBoxAt | self-report/des.go:477-524 | output bit 4m+k is bit k of the binary of the S-box entry that group m selects |
| Des.SBoxStep | self-report/des.go:478-523 | one iteration of the loop extends the correct prefix of the output by the four bits of group m |
| Des.SBoxLookup | self-report/des.go:478-523 | the row, column, table lookup and digit parsing of one iteration give the four S-box output bits of group m |
| Des.SBoxDigits | self-report/des.go:513-523 | parsing GetBoxBinary's four characters gives the S-box output bits of group m |
| Des.PC2Index | self-report/des.go:670-718 | every subkey bit is read from one of the 56 rotated key bits |
| Des.ScheduleSum | self-report/des.go:643 | the shift schedule adds up to 28, one full turn of a key half |
| Des.ShiftTotalBound | self-report/des.go:643-668 | the rotations before and during each round never exceed 28 |
| Des.PC1Index | self-report/des.go:645-653 | every bit of the 56-bit key is read from the first 63 key entries |
| Des.PermutedChoice1 | self-report/des.go:645-653 | the PC-1 key has 56 bits |
| Des.PC1IndexAt | self-report/des.go:648-652 | key bit 8i+j is taken from keyByte[8(7-j)+i] |
| Des.Rotated | self-report/des.go:659-668 | rotating both 28-bit halves keeps 56 bits |
| Des.RotatedStep | self-report/des.go:659-668 | one more rotation of s-rotated halves is a rotation by s+1 |
| Des.RotatedFullTurn | self-report/des.go:643-668 | rotating by 28 places gives back both halves |
| Des.Subkeys | self-report/des.go:636-805 | there are 16 subkeys |
| Des.SubkeySchedule | self-report/des.go:655-805 | 16 subkeys are generated, and after the sixteenth round each half is back at its PC-1 value |
| Des.SubkeyAt | self-report/des.go:655-805 | subkey i is PC-2 of the PC-1 key rotated by the schedule up to and including round i |
| Des.RotateTimes | self-report/des.go:659-668 | the `for j < loop[i]` loop rotates the key array by the round's count |
| Des.RotateOnce | self-report/des.go:660-667 | one pass rotates both 28-bit halves of the key array left by one place, in place |
| Des.LoadPermutedChoice1 | self-report/des.go:645-653 | the nested `for i < 7`, `for j < 8` loops leave the key array holding the PC-1 selection of the key bits |
| Des.NextSubkey | self-report/des.go:655-804 | one pass of the schedule loop advances the rotation to the schedule's running total and yields subkey i |
| Des.ShiftStep | self-report/des.go:643 | round i adds loop[i] places and the running total stays within one 28-place turn |
| Des.GenerateKeys | self-report/des.go:636-805 | the function computes Subkeys: 16 subkeys of 48 entries each |
| Des.RoundInverse | self-report/des.go:240-255 | a Feistel round undoes itself when the halves are swapped before and after |
| Des.RoundsInverse | self-report/des.go:283-298 | for any round function that undoes itself around a swap, running the rounds with the keys reversed on the swapped output gives the input back |
| Des.FeistelInverse | self-report/des.go:283-298 | running the rounds with the keys in reverse order on the swapped output gives the input back |
| Des.Join | self-report/des.go:257-261 | the swapped halves form a 64-entry block |
| Des.EncBlock | self-report/des.go:226-263 | Enc yields 64 entries |
| Des.DecBlock | self-report/des.go:265-307 | Dec yields 64 entries |
| Des.BlockCipherInverse | self-report/des.go:257-262 | the block decrypts under the reversed key sequence: IP⁻¹, the swap and IP cancel between two passes |
| Des.DecOfEnc | self-report/des.go:265-307 | Dec(Enc(x, k), k) == x for every 64-bit x and key k |
| Des.EncOfDec | self-report/des.go:226-263 | Enc(Dec(y, k), k) == y for every 64-bit y and key k |
| Des.RoundStep | self-report/des.go:241-254 | one iteration of the rounds loop turns (L, R) into (R, f(R, K) xor L) in the arrays |
| Des.ShiftHalves | self-report/des.go:241-244 | the first copy loop saves L in tempLeft and copies R into ipLeft |
| Des.CopyInto | self-report/des.go:252-254 | the copy loop makes the destination equal to the source |
| Des.RoundOutput | self-report/des.go:250 | the nested calls compute P(S(E(R) xor K)) xor L |
| Des.LoadHalves | self-report/des.go:235-238 | the first loop splits the permuted block into ipLeft and ipRight |
| Des.EncRounds | self-report/des.go:240-255 | the `for i := 0; i < 16` loop leaves the halves at the Feistel rounds over subkeys 0..15 |
| Des.DecRounds | self-report/des.go:283-298 | the `for i := 15; i >= 0` loop leaves the halves at the Feistel rounds over the reversed subkeys |
| Des.DecRound | self-report/des.go:284-297 | the pass with subkey i extends the rounds over the reversed subkeys by one |
| Des.FeistelStepReversed | self-report/des.go:283-298 | the reversed subkeys' prefix of length 16-i ends with subkey i |
| Des.Enc | self-report/des.go:226-263 | Enc computes EncBlock: IP, 16 rounds with subkeys 0..15, the swap, then IP⁻¹ |
| Des.Dec | self-report/des.go:265-307 | Dec computes DecBlock: the same with subkeys 15 down to 0 |
| DesString.Bits16 | self-report/des.go:895-902 | the `for j` loop's digits of a character are 16 entries |
| DesString.Bits16PrefixValue | self-report/des.go:895-902 | the first n digits `(k / 2^(15-j)) % 2` read as k / 2^(16-n) |
| DesString.Bits16Value | self-report/des.go:895-902 | the 16 digits are the big-endian binary of the character: their value is k |
| DesString.StrBitsValue | self-report/des.go:887-932 | entries 16i..16i+15 of StrToBt are the 16-bit binary of byte i when i < min(len, 4), and 0 after that |
| DesString.FillBits16 | self-report/des.go:893-902 | the `for j` loop with its `pow` loop writes the binary of one character into entries 16i..16i+15 and nothing else |
| DesString.StrToBt | self-report/des.go:887-932 | the loops of all three branches compute StrBits: 64 entries, 16 per character |
| DesString.KeyBlocks | self-report/des.go:816-830 | GetKeyBytes has len/4+1 slots |
| DesString.KeyBlocksPresent | self-report/des.go:816-830 | every slot is filled exactly when the key length is not a multiple of 4, and then there are ⌈len/4⌉ blocks; otherwise the last slot stays nil |
| DesString.GetKeyBytes | self-report/des.go:816-830 | the loop computes KeyBlocks |
| DesString.Bt4ToHex | self-report/des.go:171-224 | a non-empty result comes from four binary digits |
| DesString.HexToBt4 | self-report/des.go:832-885 | a non-empty result is four digits, from a single hex character |
| DesString.NibbleSpelling | self-report/des.go:171-224 | both switches agree with the arithmetic spelling of every value 0..15 |
| DesString.NibbleOfBits | self-report/des.go:171-224 | every four-bit string is the spelling of its value |
| DesString.Bt4ToHexOfBits | self-report/des.go:171-224 | Bt4ToHex of four bits is the upper-case hex digit of their value |
| DesString.Bt4RoundTrip | self-report/des.go:832-885 | HexToBt4(Bt4ToHex(b)) == b for every 4-bit string |
| DesString.Hex4RoundTrip | self-report/des.go:171-224 | Bt4ToHex(HexToBt4(h)) == h for every upper-case hex digit |
| DesString.HexOf | self-report/des.go:157-169 | the hex text of a 64-bit block has exactly 16 characters |
| DesString.NibbleAt | self-report/des.go:161-165 | each group of four digits has a value below 16 |
| DesString.Bt64ToHex | self-report/des.go:157-169 | the loop computes HexOf: 16 characters from 0-9A-F, digit i spelling bits 4i..4i+3 |
| DesString.HexToBt64 | self-report/des.go:807-814 | the loop concatenates HexToBt4 of the first 16 characters |
| DesString.Hex64RoundTrip | self-report/des.go:807-814 | HexToBt64 recovers the binary digits of the block that Bt64ToHex spelled |
| DesString.HexBitsRoundTrip | self-report/des.go:807-814 | parsing HexToBt64(Bt64ToHex(b)) gives b back |
| DesString.DataBlocks | self-report/des.go:66-111 | StrEnc processes ⌈len/4⌉ groups |
| DesString.DataBlocksShape | self-report/des.go:66-111 | groups before len/4 are the full slices `data[4i:4i+4]`; a shorter remainder group follows when the length is not a multiple of 4 |
| DesString.ChainInverse | self-report/des.go:33-41 | decrypting with the key blocks in reverse order undoes the chain of Enc calls |
| DesString.Ciphers | self-report/des.go:69-151 | there is one cipher block per group |
| DesString.HexConcat | self-report/des.go:108 | the concatenated hex text has 16 characters per block |
| DesString.HexConcatBlock | self-report/des.go:108 | characters 16i..16i+15 of the concatenation spell block i |
| DesString.StrEncLength | self-report/des.go:11-155 | StrEnc returns "" exactly for empty data, and otherwise 16·⌈len/4⌉ hex characters |
| DesString.StrEncDecrypts | self-report/des.go:11-155 | characters 16i..16i+15 of the output, read back with HexToBt64 and decrypted with the key blocks in reverse order, give StrToBt of group i |
| DesString.EncryptAll | self-report/des.go:33-35 | the `for x` loop applies Enc under each block of one key, in order |
| DesString.ChainKeysCases | self-report/des.go:29-62 | the three branches use the first key's blocks; then the second key's if it is non-empty; then the third key's if both are non-empty |
| DesString.EncryptWithKeys | self-report/des.go:29-62 | the three-way branch encrypts the block through ChainKeys |
| DesString.EncryptGroup | self-report/des.go:70-108 | one group is StrToBt, then the key chain, then Bt64ToHex |
| DesString.EncryptFullGroups | self-report/des.go:69-109 | the `for i < iterator` loop appends the hex of every full group, in order |
| DesString.StrEnc | self-report/des.go:11-155 | StrEnc computes StrEncSpec: the hex of every four-character group encrypted through the key chain, concatenated in order |
| SockFrames.BytesToString | pkg/proxy/socks5/sock_frame.go:223 | Go's `string(bytes)` keeps one character per byte |
| SockFrames.AsciiBytes | pkg/proxy/socks5/sock_conn.go:193 | `[]byte(s)` keeps one byte per character |
| SockFrames.BytesStringRoundTrip | pkg/proxy/socks5/sock_frame.go:223 | converting bytes to a string and back gives the bytes; an ASCII string converted to bytes and back gives the string |
| SockFrames.DstString | pkg/proxy/socks5/sock_frame.go:84-86 | `DST.String()` starts with the address followed by ':' (then the decimal port) |
| SockFrames.HandShakeAccepts | pkg/proxy/socks5/sock_frame.go:138-157 | the greeting is accepted iff it has at least 3 bytes, byte 0 is 5 and byte 1 is 0..3; then Ver = 5, Nmethods = byte 1 and Methods = bytes 2.., and a rejected frame changes at most Ver |
| SockFrames.GreetingAccepted | pkg/proxy/socks5/sock_frame.go:148-156 | an RFC 1928 greeting (VER, NMETHODS, METHODS) is accepted iff it offers 1 to 3 methods, because NMETHODS is checked as if it were a method code |
| SockFrames.ParseAuthReq | pkg/proxy/socks5/sock_frame.go:185-239 | the parse panics exactly on the frames AuthReqPanics names (a non-empty user and a zero password length); otherwise exactly one of the request and the error is present |
| SockFrames.AuthReqErrors | pkg/proxy/socks5/sock_frame.go:208-214 | the sub-negotiation returns an error only on fewer than 2 bytes or a version other than 5 (not RFC 1929's 1), for every frame |
| SockFrames.AuthReqEmptyUser | pkg/proxy/socks5/sock_frame.go:218-222 | a zero or overlong ULEN gives empty credentials and no error |
| SockFrames.AuthReqEmptyPassword | pkg/proxy/socks5/sock_frame.go:223-235 | when the password cannot be read, the user is already set, the password is empty and there is no error |
| SockFrames.EmptyPasswordPanics | pkg/proxy/socks5/sock_frame.go:231-236 | an RFC 1929 frame with a non-empty user and an empty password panics with "slice bounds out of range [ULEN+3:ULEN+2]" |
| SockFrames.AuthReqFull | pkg/proxy/socks5/sock_frame.go:218-238 | a complete frame gives user = bytes 2..ULEN and password = bytes ULEN+3..ULEN+PLEN+1 |
| SockFrames.AuthFrameReadsShort | pkg/proxy/socks5/sock_frame.go:223-236 | on a well-formed RFC 1929 frame, the user and the password each lose their last byte |
| SockFrames.InstructionError | pkg/proxy/socks5/sock_frame.go:272-364 | the request parse panics exactly on the frames InstructionPanics names: a good header and fewer than two bytes after the IPv4, IPv6 or domain address |
| SockFrames.InstructionAccepts | pkg/proxy/socks5/sock_frame.go:294-363 | an accepted request (no error, no panic) has a good header and ATYP 1, 3 or 4, and sets Ver, Cmd, Rsv, Aytp and Dst from it; any other ATYP is "unsupported AYTP type" |
| SockFrames.InstructionIPv4 | pkg/proxy/socks5/sock_frame.go:314-340 | an IPv4 request is accepted iff it has at least 10 bytes; 8 or fewer is "ipv4 parse failed", and 9 panics with "index out of range [1] with length 1"; Dst is the dotted address and the big-endian port from bytes 8 and 9 |
| SockFrames.DomainWithoutPortPanics | pkg/proxy/socks5/sock_frame.go:350-358 | a domain request that ends with the name, without port bytes, panics with "index out of range [1] with length 1" |
| SockFrames.DomainRequestReadsShifted | pkg/proxy/socks5/sock_frame.go:350-358 | on an RFC 1928 domain request, the address includes its length octet and loses its last character, and the port is read one byte early |
| SockFrames.IPv4TestVector | pkg/proxy/socks5/sock_frame_test.go:18-20 | [5 1 0 1 127 0 0 1 4 211] gives Dst "127.0.0.1:1235" |
| SockFrames.DomainTestVector | pkg/proxy/socks5/sock_frame_test.go:12-16 | the www.google.com request of the test gives the shifted address and port 27905 |
| SockFrames.SockFrame.constructor | pkg/proxy/socks5/sock_frame.go:101-103 | a new frame has every field zero |
| SockFrames.SockFrame.ReadHandShake | pkg/proxy/socks5/sock_frame.go:115-158 | the error and the new fields are those of the greeting parser, and a read failure changes nothing |
| SockFrames.SockFrame.WriteHandShake | pkg/proxy/socks5/sock_frame.go:169-174 | the reply is exactly [Ver, Method] |
| SockFrames.SockFrame.ReadAuthReq | pkg/proxy/socks5/sock_frame.go:185-239 | the request and error, or the panic, are those of ParseAuthReq on the bytes received |
| SockFrames.SockFrame.WriteAuthResp | pkg/proxy/socks5/sock_frame.go:249-260 | the reply is [0x05, 0x00] on success and [0x05, 0x01] otherwise |
| SockFrames.SockFrame.ReadInstruction | pkg/proxy/socks5/sock_frame.go:272-364 | the error or the panic, and the new fields, are those of the request parser on the bytes received; on a panic the fields are those stored before the port read |
| SockFrames.SockFrame.ReadAddress | pkg/proxy/socks5/sock_frame.go:312-361 | the switch on ATYP: the error or the panic, and ATYP and DST, are those of the address part of the request parser |
| SockFrames.SockFrame.WriteInstruction | pkg/proxy/socks5/sock_frame.go:376-393 | the reply is VER, REP, RSV, ATYP 1, the IPv4 bytes, then the port bytes; REP is 0 exactly when connFunc succeeded |
| SockAuths.NewSockAuth | pkg/proxy/socks5/sock_auth.go:17-23 | the authenticator keeps the configured user and password |
| SockAuths.AuthExactly | pkg/proxy/socks5/sock_auth.go:25-32 | Auth succeeds iff both the user and the password are equal to the configured ones |
| SockAuths.AuthWrongUser | pkg/proxy/socks5/sock_auth.go:27-29 | a wrong user fails whatever the password |
| SockAuths.AuthEmptyCredentials | pkg/proxy/socks5/sock_auth.go:17-32 | with empty configured credentials, only the empty user with the empty password succeeds |
| SockConns.MethodChoiceNeverRefuses | pkg/proxy/socks5/sock_conn.go:104-115 | the chosen method is always 0x00 or 0x02, never 0xFF; it is 0x02 iff authentication is configured and offered |
| SockConns.SelectMethod | pkg/proxy/socks5/sock_conn.go:106-115 | the `for … break` loop computes MethodChoice |
| SockConns.HandShakePhaseEffect | pkg/proxy/socks5/sock_conn.go:92-125 | the handshake fails iff it changes nothing; otherwise it records the chosen method and sends [5, method], changing nothing else |
| SockConns.AuthPhaseErr | pkg/proxy/socks5/sock_conn.go:128-145 | the authentication phase panics exactly when reading the request panics |
| SockConns.ParseInstructionErr | pkg/proxy/socks5/sock_conn.go:202-230 | parsing the instruction panics exactly when reading the request panics |
| SockConns.InstructionPhaseErr | pkg/proxy/socks5/sock_conn.go:148-199 | the instruction phase panics exactly on a request whose port read panics |
| SockConns.CmdMapping | pkg/proxy/socks5/sock_conn.go:212-221 | CONNECT maps to "tcp" and UDP to "udp", each with the resolver's error; BIND is "unsupported cmd. dstNetwork:ftp" and changes nothing |
| SockConns.ConnFuncEncodesLocal | pkg/proxy/socks5/sock_conn.go:155-194 | a successful TCP dial replies with the local host's bytes and its port as two big-endian bytes, and records the connection |
| SockConns.DialFailureReply | pkg/proxy/socks5/sock_conn.go:159-163 | a failed dial gives its error, and the reply sent is [5, 1, 0, 1] with no address or port |
| SockConns.CloseIdempotent | pkg/proxy/socks5/sock_conn.go:303-321 | Close twice is Close once; it leaves the connection closed, and closes the source only on the first call |
| SockConns.StartClosesOnFailure | pkg/proxy/socks5/sock_conn.go:59-89 | a failed Start leaves the connection closed and not copying; a successful one leaves it copying and open; a panicking one leaves it open and not copying |
| SockConns.HandShakeKeepsFlags | pkg/proxy/socks5/sock_conn.go:92-125 | the handshake phase never touches the closed and copying flags |
| SockConns.AuthKeepsFlags | pkg/proxy/socks5/sock_conn.go:128-145 | the authentication phase never touches the closed and copying flags |
| SockConns.InstructionKeepsFlags | pkg/proxy/socks5/sock_conn.go:148-199 | the instruction phase never touches the closed and copying flags |
| SockConns.ParseKeepsFlags | pkg/proxy/socks5/sock_conn.go:202-230 | parsing the instruction never touches the closed and copying flags |
| SockConns.InstructionPhaseFacts | pkg/proxy/socks5/sock_conn.go:148-199 | the phase's error is determined by the peer's inputs, and it only appends to what was sent |
| SockConns.AuthRunsOnlyWhenOffered | pkg/proxy/socks5/sock_conn.go:70-75 | unless user/password was chosen, the authentication input plays no part and the result is that of the instruction phase |
| SockConns.AuthVerdictIgnored | pkg/proxy/socks5/sock_conn.go:139-144 | a failed credential check is reported to the client but does not stop the connection |
| SockConns.DialFailureStillStarts | pkg/proxy/socks5/sock_conn.go:196-198 | when the dial fails but the failure reply is written, Start succeeds and starts copying after sending [5, 1, 0, 1] |
| SockConns.StartPanicsOnlyOnFrames | pkg/proxy/socks5/sock_conn.go:59-89 | Start panics only when the auth request or the connect request is one whose parse panics |
| SockConns.EmptyPasswordCrashesStart | pkg/proxy/socks5/sock_conn.go:70-75 | with credentials configured and USERPASS offered, an auth request with an empty password makes Start panic, with the connection left as the handshake left it |
| SockConns.ShortPortCrashesStart | pkg/proxy/socks5/sock_conn.go:77-78 | a nine-byte IPv4 connect request makes Start panic and leaves the connection unclosed |
| SockConns.SockConn.constructor | pkg/proxy/socks5/sock_conn.go:45-57 | a new connection keeps its id and authenticator and is open, idle and unconnected |
| SockConns.SockConn.HandShake | pkg/proxy/socks5/sock_conn.go:92-125 | the error and new state are those of the handshake phase |
| SockConns.SockConn.HandleAuth | pkg/proxy/socks5/sock_conn.go:128-145 | the error or the panic, and the new state, are those of the authentication phase; a panic changes nothing |
| SockConns.SockConn.ParseProxyInstruction | pkg/proxy/socks5/sock_conn.go:202-230 | the error or the panic, and the new state, are those of the request parser and the command mapping |
| SockConns.SockConn.ConnFunc | pkg/proxy/socks5/sock_conn.go:155-194 | the new state and reply are those of DialOutcome |
| SockConns.SockConn.HandleProxyInstruction | pkg/proxy/socks5/sock_conn.go:148-199 | the error or the panic, and the new state, are those of the instruction phase |
| SockConns.SockConn.Close | pkg/proxy/socks5/sock_conn.go:303-321 | the new state is CloseSpec of the old one; the result is nil when already closed, and the source's close error otherwise |
| SockConns.SockConn.Start | pkg/proxy/socks5/sock_conn.go:59-89 | the error or the panic, and the new state, are those of StartSpec: handshake, then authentication if chosen, then the instruction, closing on any failure and stopping where a phase panics |
| SockServers.SockServer.constructor | pkg/proxy/socks5/sock_server.go:28-41 | a new server has an empty table, id counter 0, is open and has not crashed |
| SockServers.SockServer.ServeAcceptStep | pkg/proxy/socks5/sock_server.go:66-101 | one pass of the accept loop stops iff closeCh is closed or Start panicked, and a panic is recorded as the crash; only a connection that started is registered, under the current id, and the counter is incremented; the table stays keyed by id |
| SockServers.SockServer.DelConn | pkg/proxy/socks5/sock_server.go:103-108 | removes exactly that id and changes nothing else |
| SockServers.SockServer.Close | pkg/proxy/socks5/sock_server.go:110-135 | a second Close is a no-op returning nil; the first gives every registered connection the state of its own Close, empties the table, returns the listener's error, and marks the server closed only if the listener closed cleanly |
| SockServers.SockServer.CloseConns | pkg/proxy/socks5/sock_server.go:118-124 | the loop closes every registered connection once (its new state is CloseSpec of its old one) and empties the table |
| SockServers.SockServer.CloseOne | pkg/proxy/socks5/sock_server.go:118-124 | one pass of the loop: the chosen connection's new state is CloseSpec of its old one, it leaves the table, and every other connection is untouched |
| Text.NatString | pkg/proxy/socks5/sock_frame.go:85 | `%v` of a port is a non-empty string of decimal digits |
| Text.NatStringValue | pkg/proxy/socks5/sock_frame.go:85 | reading the printed numeral back gives the number |
| Text.NatStringInjective | pkg/proxy/socks5/sock_frame.go:85 | different numbers print differently |
| Text.PadDigits | pkg/c-log/log..go:157 | a zero-padded date field has at least its width, and exactly its width when the number fits |
| Text.PadDigitsValue | pkg/c-log/log..go:157 | a padded field reads back as its number |
| Text.Split | pkg/proxy/http-svr/http_conn.go:135 | `strings.Split` yields at least one piece, and no piece contains the separator |
| Text.JoinSplit | pkg/proxy/http-svr/http_conn.go:135-137 | joining the pieces of a split with the same separator gives the string back |
| Text.JoinAppend | pkg/proxy/http-svr/http_conn.go:136-137 | joining with one more piece appended adds the separator and that piece |
| Text.ReplaceAllAbsent | pkg/proxy/http.go:124 | `strings.ReplaceAll` leaves a string without the pattern unchanged |
| Text.ScanTwo | pkg/proxy/http.go:110 | `Sscanf("%s%s")` succeeds only with two non-empty blank-free tokens |
| Text.ScanTwoJoined | pkg/proxy/http.go:110 | scanning "a b" gives back a and b |
| Net.SplitHostPort | pkg/proxy/http-svr/http_conn.go:169 | a successful split finds a colon and yields the text after the last colon as the port, which holds no colon or bracket; an address without a colon is the missing-port error |
| Net.SplitEmptyExample | pkg/proxy/http-svr/http_conn.go:169 | the empty address is the missing-port error, whose text then has no "address" prefix |
| Net.JoinHostPort | pkg/proxy/http-svr/http_conn.go:174 | a host with a colon is bracketed; the result starts with the host and ':' |
| Net.SplitJoin | pkg/proxy/http-svr/http_conn.go:169-174 | SplitHostPort undoes JoinHostPort for every host and port without brackets whose port has no colon |
| Net.SplitBracketedExample | pkg/proxy/http-svr/http_conn.go:169 | "[::1]:80" splits into "::1" and "80" |
| Net.SplitColonsExample | pkg/proxy/http-svr/http_conn.go:169 | "::1:80" is an error: too many colons |
| Net.BigEndianUint16 | pkg/proxy/socks5/sock_frame.go:340 | two bytes read as a port below 65536 |
| Net.PutUint16 | pkg/proxy/socks5/sock_conn.go:190-191 | a port is written as two bytes |
| Net.Uint16RoundTrip | pkg/proxy/socks5/sock_conn.go:188-191 | Uint16 reads back what PutUint16 wrote, and every two bytes are written by some port |
| Net.ParseUint16 | pkg/proxy/socks5/sock_conn.go:188-189 | a port parsed with its error ignored is below 65536 |
| Net.ParseUint16OfNat | pkg/proxy/socks5/sock_conn.go:188-189 | a printed port parses back to itself |
| HttpHeaders.CanonicalKey | pkg/proxy/http-svr/http_conn.go:141 | the canonical form of a header key has its length |
| HttpHeaders.CanonicalKeyIdempotent | pkg/proxy/http-svr/http_conn.go:141 | canonicalising twice is canonicalising once |
| HttpHeaders.Get | pkg/proxy/http-svr/http_conn.go:133 | a non-empty Get is one of the key's values |
| HttpHeaders.GetSet | pkg/proxy/http-svr/http_conn.go:141 | after Set, Get of that key is the value set, and Get of other keys is unchanged |
| HttpHeaders.GetAdd | pkg/proxy/http-svr/http_conn.go:153 | Add appends to a canonical key's values; Get keeps an existing first value, and returns the added value when there was none |
| HttpHeaders.AddValues | pkg/proxy/http-svr/http_conn.go:152-154 | the inner loop appends all values of one canonical key, and adds nothing for an empty list |
| HttpHeaders.AddAll | pkg/proxy/http-svr/http_conn.go:151-155 | copying a parsed header with Add appends every non-empty list of values to the same key |
| HttpTunnels.ForwardForAppends | pkg/proxy/http-svr/http_conn.go:133-140 | the X-Forward-For value is the existing one + "," + the client IP, or the client IP alone when there is none |
| HttpTunnels.TunnelAddrPort | pkg/proxy/http-svr/http_conn.go:169-174 | the dialled address is the Host's IP and port, with the port defaulting to "80" when empty |
| HttpTunnels.TunnelAddrDefaults | pkg/proxy/http-svr/http_conn.go:169-174 | "name:" dials "name:80", and a Host with no port at all dials ":80" because the split error is ignored |
| HttpTunnels.PlainRequestEndsInError | pkg/proxy/http-svr/http_conn.go:114-166 | a non-CONNECT request never dials or keeps alive and always ends in an error, ErrNotTunnelProxy once its response is written |
| HttpTunnels.ForwardedHeader | pkg/proxy/http-svr/http_conn.go:125-141 | the forwarded request carries the client header with X-Forward-For set to the composed value |
| HttpTunnels.PlainResponseCopiesUpstream | pkg/proxy/http-svr/http_conn.go:151-157 | the response has the upstream status code and exactly the upstream header's non-empty keys, with their values |
| HttpTunnels.ConnectAnswer | pkg/proxy/http-svr/http_conn.go:169-211 | CONNECT dials the tunnel address; keep-alive iff Proxy-Connection is exactly "keep-alive", and then only the last setter's error counts; otherwise the tunnel response is written and its write error returned |
| HttpTunnels.TunnelResponseFields | pkg/proxy/http-svr/http_conn.go:203-208 | the tunnel response is "200 Connection Established", code 200, the request's protocol and version, and Content-Type "text/plain; charset=utf-8" |
| HttpTunnels.ConnectFails | pkg/proxy/http-svr/http_conn.go:175-183 | a resolve or dial failure returns that error and writes nothing |
| HttpTunnels.CloseTunnelIdempotent | pkg/proxy/http-svr/http_conn.go:214-233 | Close twice is Close once; the first call closes closeCh, the source, and the destination if there is one |
| HttpTunnels.StartClosesOnError | pkg/proxy/http-svr/http_conn.go:47-57 | start fails iff it closes the connection; on success the request was CONNECT, the tunnel is dialled, answered and copying |
| HttpTunnels.PlainRequestCloses | pkg/proxy/http-svr/http_conn.go:47-57 | a forwarded plain request ends with ErrNotTunnelProxy and a closed connection |
| HttpTunnels.CreateDstConn | pkg/proxy/http-svr/http_conn.go:103-212 | the step-by-step method computes CreateDstConnSpec |
| HttpSvr.HttpConn.constructor | pkg/proxy/http-svr/http_conn.go:34-45 | a new connection keeps its id and is open, with no destination |
| HttpSvr.HttpConn.CreateDstConn | pkg/proxy/http-svr/http_conn.go:103-212 | the new state and error are those of CreateDstConnSpec with ErrNotTunnelProxy |
| HttpSvr.HttpConn.Close | pkg/proxy/http-svr/http_conn.go:214-233 | the new state is CloseTunnel of the old one; nil when already closed, the source's close error otherwise |
| HttpSvr.HttpConn.Start | pkg/proxy/http-svr/http_conn.go:47-57 | the new state and error are those of StartTunnel |
| HttpSvr.HttpServer.constructor | pkg/proxy/http-svr/http_server.go:29-41 | a new server has an empty table, id counter 0 and is open |
| HttpSvr.HttpServer.ServeAcceptStep | pkg/proxy/http-svr/http_server.go:64-99 | one pass stops iff closeCh is closed; a non-CONNECT request is never registered; a started tunnel is registered under the current id and the counter incremented |
| HttpSvr.HttpServer.DelConn | pkg/proxy/http-svr/http_server.go:121-128 | removes that id, is a no-op for an absent id, and changes nothing else |
| HttpSvr.HttpServer.Close | pkg/proxy/http-svr/http_server.go:101-119 | a second Close is a no-op returning nil; the first marks the server closed before closing every connection, empties the table and returns the listener's error |
| HttpSvr.HttpServer.CloseConns | pkg/proxy/http-svr/http_server.go:111-117 | the loop closes every registered connection once and deletes it |
| HttpSvr.HttpServer.CloseOne | pkg/proxy/http-svr/http_server.go:111-117 | one pass of the loop: the chosen connection's new state is CloseTunnel of its old one, it leaves the table, and every other connection is untouched |
| ProxyHttp.HttpConn.constructor | pkg/proxy/http_conn.go:33-44 | a new connection keeps its server and id and is open, with no destination |
| ProxyHttp.HttpConn.CreateDstConn | pkg/proxy/http_conn.go:100-205 | the new state and error are those of CreateDstConnSpec, with "not tunnel proxy, conn finished" for a plain request |
| ProxyHttp.HttpConn.Close | pkg/proxy/http_conn.go:207-227 | the new state is CloseTunnel of the old one; the first call also removes the connection's id from its server's table and changes nothing else there |
| ProxyHttp.HttpConn.Start | pkg/proxy/http_conn.go:46-56 | the new state and error are those of StartTunnel; a failure on an open connection removes its id from the server's table |
| ProxyHttp.HttpServer.constructor | pkg/proxy/http_server.go:26-38 | a new server has an empty table, id counter 0 and is open |
| ProxyHttp.HttpServer.ServeAcceptStep | pkg/proxy/http_server.go:53-84 | one pass stops iff closeCh is closed; only a started tunnel is registered, under the current id, and the counter incremented |
| ProxyHttp.HttpServer.Register | pkg/proxy/http_server.go:80-81 | the started connection is stored under the current id, the counter moves on by one, the table stays keyed by id and the closed flags are untouched |
| ProxyHttp.HttpServer.DelConn | pkg/proxy/http_server.go:102-109 | removes that id, is a no-op for an absent id, and changes nothing else |
| ProxyHttp.HttpServer.Close | pkg/proxy/http_server.go:86-100 | a second Close is a no-op returning nil; the first empties the table without closing any connection and returns the listener's error |
| TcpServers.ServerOpt.constructor | pkg/proxy/tcp/server.go:23-26 | the options hold the given address and proxy type |
| TcpServers.EffectiveProxyType | pkg/proxy/tcp/server.go:29-31 | the type a server runs with is never UNKOWN_PROXY: an unknown type becomes HTTP_PROXY and any other is kept |
| TcpServers.Conn.constructor | pkg/proxy/tcp/conn.go:43-50 | a new connection has its id and is open |
| TcpServers.Conn.Close | pkg/proxy/tcp/conn.go:205-219 | a second Close returns nil; the first marks the connection closed and returns the client socket's close error |
| TcpServers.Server.constructor | pkg/proxy/tcp/server.go:28-45 | NewServer rewrites an unknown proxy type in the options, and the server starts with counter 0, an empty table, open |
| TcpServers.Server.ServeAcceptStep | pkg/proxy/tcp/server.go:60-98 | one pass stops iff closeCh is closed; an accept or keep-alive failure is reported in that order and registers nothing; otherwise a fresh connection is registered under the current id and the counter incremented |
| TcpServers.Server.DelConn | pkg/proxy/tcp/server.go:120-127 | removes that id, is a no-op for an absent id, and changes nothing else |
| TcpServers.Server.Close | pkg/proxy/tcp/server.go:100-118 | a second Close is a no-op returning nil; the first closes every registered connection, empties the table, closes closeCh and returns the listener's error |
| TcpServers.Server.CloseConns | pkg/proxy/tcp/server.go:110-116 | the loop closes every registered connection and empties the table |
| TcpServers.Server.CloseOne | pkg/proxy/tcp/server.go:110-116 | one pass of the loop: the chosen connection is closed and leaves the table, the rest of the table is kept, and every other connection is untouched |
| HttpProxyServer.Conn.constructor | proxy/http/server.go:68-73 | a new connection has its id, is not running and is open |
| HttpProxyServer.Conn.Start | proxy/http/server.go:74 | the result is the given start error, and the connection runs iff a start succeeded |
| HttpProxyServer.Conn.Close | proxy/http/server.go:102 | a second Close returns nil; the first marks the connection closed and returns the close error |
| HttpProxyServer.Server.constructor | proxy/http/server.go:27-39 | NewServer: counter 0, an empty table, open |
| HttpProxyServer.Server.ServeAcceptStep | proxy/http/server.go:54-89 | one pass stops iff closeCh is closed; an accept or start failure (ErrNotTunnelProxy included) registers nothing; a started connection is registered under the current id and the counter incremented |
| HttpProxyServer.Server.DelConn | proxy/http/server.go:111-118 | removes that id, is a no-op for an absent id, and changes nothing else |
| HttpProxyServer.Server.Close | proxy/http/server.go:91-109 | a second Close is a no-op returning nil; the first closes every registered connection (keeping its running flag), empties the table, closes closeCh and returns the listener's error |
| HttpProxyServer.Server.CloseConns | proxy/http/server.go:101-107 | the loop closes every registered connection, keeping its running flag, and empties the table |
| HttpProxyServer.Server.CloseOne | proxy/http/server.go:101-107 | one pass of the loop: the chosen connection is closed with its running flag kept and leaves the table, the rest of the table is kept, and every other connection is untouched |
| ServeMuxes.MuxRouting | pkg/proxy/http1.go:34-36 | a mux with "/" routed to the proxy would reach it for every path, but the fresh empty mux that is installed, like the default mux, reaches it for none; the proxy as handler reaches it for all |
| HttpPxy.ParseHttpVersionRoundTrip | pkg/proxy/http.go:116 | ParseHTTPVersion accepts "HTTP/major.minor" for single digits and gives back the two numbers |
| HttpPxy.GetUrl | pkg/proxy/http.go:105-130 | a URL is produced only when the CONNECT header scans as two tokens and the second is a valid HTTP version |
| HttpPxy.SchemeChoice | pkg/proxy/http.go:121-127 | the URL gets "https://" iff the target contains "443" and "http://" otherwise, with the target unchanged in that case |
| HttpPxy.GetUrlResult | pkg/proxy/http.go:109-129 | a successful GetUrl is the scheme-prefixed first token of the CONNECT header |
| HttpPxy.ReplacePortSuffix | pkg/proxy/http.go:124 | removing ":443" from "host:443" leaves the host |
| HttpPxy.TlsScheme | pkg/proxy/http.go:122-127 | "host:443" becomes "https://host" |
| HttpPxy.GetUrlTlsExample | pkg/proxy/http.go:105-130 | CONNECT "host:443 HTTP/1.1" gives "https://host" |
| HttpPxy.GetUrlPlainExample | pkg/proxy/http.go:105-130 | CONNECT "host HTTP/1.1" without "443" gives "http://host" |
| HttpPxy.Zeros | pkg/proxy/http.go:138 | make([]byte, n): n zero bytes |
| HttpPxy.GetBody | pkg/proxy/http.go:132-145 | the body succeeds iff reading the request succeeds, and is 1500 zero bytes followed by what was read |
| HttpPxy.ServeOutcome | pkg/proxy/http.go:64-104 | the status is 500 iff the URL, body, request or upstream call fails, and 200 (implicit) otherwise; on failure nothing is copied; on success the upstream body is copied and the request forwarded carries the method, URL, padded body and header; a bad URL forwards nothing |
| HttpPxy.Proxy.constructor | pkg/proxy/http.go:28-51 | NewHttpPxy keeps debug and address and installs the proxy itself as handler |
| HttpPxy.Proxy.Start | pkg/proxy/http.go:53-62 | Start returns nil, serves, and every path reaches the proxy |
| HttpPxy.Proxy.Close | pkg/proxy/http.go:147-151 | Close returns Shutdown's error and changes nothing else |
| HttpPxy1.XffKeyCanonical | pkg/proxy/http1.go:55-58 | "X-Forwarded-For" is already in canonical form, so Set and the map lookup use the same key |
| HttpPxy1.CanonicalCaseFixed | pkg/proxy/http1.go:58 | a key already upper-case after each dash and lower-case elsewhere is left as it is by canonicalization |
| HttpPxy1.ForwardedFor | pkg/proxy/http1.go:54-59 | the X-Forwarded-For value becomes the client IP, or the prior values joined with ", " followed by ", " and the IP; every other header is unchanged |
| HttpPxy1.ForwardedTwice | pkg/proxy/http1.go:54-59 | two hops in a row give "ip1, ip2" |
| HttpPxy1.UnsplitAddressKeepsHeader | pkg/proxy/http1.go:54 | a remote address that does not split leaves the header as it is |
| HttpPxy1.ReplyCopiesUpstream | pkg/proxy/http1.go:62-79 | a failed round trip answers 502 with nothing else; otherwise the reply has the upstream status and body and exactly the upstream header keys that have values, with their values |
| HttpPxy1.ServeHTTP | pkg/proxy/http1.go:47-80 | the request sent upstream is the incoming one with the forwarded header, and the reply is ReplyFor of the round trip |
| HttpPxy1.Proxy.constructor | pkg/proxy/http1.go:23-31 | NewHttpPxy keeps debug and address and leaves the handler nil (the default mux) |
| HttpPxy1.Proxy.Start | pkg/proxy/http1.go:33-45 | Start returns nil and serves with a fresh empty mux, so no path reaches the proxy |
| HttpPxy1.Proxy.Close | pkg/proxy/http1.go:82-86 | Close returns Shutdown's error and changes nothing else |
| Svrs.Closer.constructor | svrs/svrs.go:87-90 | a registered io.Closer starts with no Close calls |
| Svrs.Closer.Close | svrs/svrs.go:65 | each Close is counted once |
| Svrs.Servers.constructor | svrs/svrs.go:77-80 | the table starts empty |
| Svrs.Servers.Init | svrs/svrs.go:13-17 | Init (re)makes an empty table |
| Svrs.Servers.Add | svrs/svrs.go:19-38 | fails with "addr exists" iff the address is taken, leaving the table as it was; otherwise adds exactly that entry under its address |
| Svrs.Servers.GetServerElements | svrs/svrs.go:40-53 | one element per entry, each with the entry's name and address, no address twice, and every address listed |
| Svrs.Servers.Del | svrs/svrs.go:55-66 | removes the address; the removed server is closed exactly once and no other closer is touched; an absent address changes nothing |
| Svrs.Servers.CloseAll | svrs/svrs.go:68-75 | keeps the table and closes every closer once per entry holding it |
| Svrs.CountStep | svrs/svrs.go:72-74 | closing one more entry raises exactly its closer's count of closed entries by one |
| Svrs.NoneLeft | svrs/svrs.go:72-74 | once no entry is left, the entries closed for each closer are all of its entries |
| Svrs.CloseOne | svrs/svrs.go:73 | one Close raises that closer's count by one and no other |
| CLogs.FilterLevelLog | pkg/c-log/log..go:105-118 | a message is kept whole or dropped whole: levels up to Info keep everything, level Err keeps exactly the non-empty messages containing "[E]", higher levels drop everything |
| CLogs.FilterIdempotent | pkg/c-log/log..go:105-118 | filtering twice is filtering once |
| CLogs.DatedPathReadsBack | pkg/c-log/log..go:157 | the dated file name is the path, a dot and "YYYY-MM-DD": ten more characters whose three zero-padded fields read back as the year, month and day |
| CLogs.Writer.constructor | pkg/c-log/log..go:158 | a newly opened file has nothing written and is open |
| CLogs.Writer.Write | pkg/c-log/log..go:145 | a write appends the message and leaves the file open or closed as it was |
| CLogs.Writer.Close | pkg/c-log/log..go:97 | closing keeps what was written |
| CLogs.CLog.constructor | pkg/c-log/log..go:58-87 | CLogInit keeps flag, path and level, has no writer yet, is open, and starts the rotation only when a path is set; its clamp of a level below LogLevelNone (lines 59-61) can never fire on a uint8 level and is not modelled |
| CLogs.CLog.CloseLog | pkg/c-log/log..go:78-86 | the closer, which CLogInit returns only when a path is set, always gives nil, marks the log closed and closes closeCh only on the first call; writer, stderr and the rotation flag are untouched |
| CLogs.CLog.SetOutput | pkg/c-log/log..go:90-102 | the new writer is installed and the previous one, if any, is closed with its contents kept; stderr, the closed flags and the rotation flag are untouched |
| CLogs.CLog.SeparateFile | pkg/c-log/log..go:155-177 | the file opened is the dated path and it becomes the writer; the previous writer is closed with its contents kept; stderr, the closed flags and the rotation flag are untouched |
| CLogs.CLog.Write | pkg/c-log/log..go:121-146 | a message the filter drops gives (0, nil) and writes nothing; otherwise it goes to stderr when no path is set or no writer is installed and to the writer otherwise, never both, and the write's own result is returned; the writer, its closed flag, the log's closed flags and the rotation flag are untouched |
| CStrings.StrncmpPrefix | pkg/auth/basic/constant.c:23 | strncmp(arg, name, strlen(arg)) is 0 iff arg is a prefix of name, the empty argument included |
| ConstantC.ChoiceByPrefix | pkg/auth/basic/constant.c:17-43 | without an argument the program asks for one; otherwise it runs the first of constantFunc, saveClass, yunsuanfu that the argument is a prefix of, in that order, and reports an invalid argument iff it is a prefix of none |
| ConstantC.ChoiceExamples | pkg/auth/basic/constant.c:23-28 | "" and "c" run constantFunc; "s" runs saveClass |
| ConstantC.SaveClassCallsAt | pkg/auth/basic/constant.c:29-32 | j calls of saveClass print 2j lines, the i-th pair being the one the i-th call prints |
| ConstantC.SaveClassLoopLines | pkg/auth/basic/constant.c:29-32 | in the loop's i-th call thingy has become t0+i+1 and count is c0-i-1, and both lines print that count (the "I2:" line prints count, not I2) |
| ConstantC.Program.constructor | pkg/auth/basic/constant.c:15 | the statics start at count 10 and thingy 5 with nothing printed |
| ConstantC.Program.Run | pkg/auth/basic/constant.c:17-43 | main always returns 0 and prints exactly the chosen branch's output; saveClass adds count to thingy and leaves count at -1; every other branch leaves the statics alone |
| ConstantC.Program.ConstantFuncDemo | pkg/auth/basic/constant.c:50-57 | prints area 50 and const I1 4 |
| ConstantC.Program.SaveClassStep | pkg/auth/basic/constant.c:62-78 | one call increments thingy and prints the thingy and I2 lines with the current count |
| ConstantC.Program.SaveClassIteration | pkg/auth/basic/constant.c:29-32 | one pass of the loop after k passes raises thingy to t0+k+1 and extends the output to that of k+1 calls |
| ConstantC.Program.SaveClassLoop | pkg/auth/basic/constant.c:29-32 | while (count--) calls saveClass count times, leaves count at -1 and thingy raised by the old count |
| ConstantC.Program.YunsuanfuDemo | pkg/auth/basic/constant.c:82-109 | prints 31, 11, 210, 2, 1, then 21 for a++ and 22 for the following a-- |
| ArrayC.ChoiceByPrefix | pkg/auth/basic/array.c:8-25 | without an argument the program asks for one; otherwise it runs arr1 iff the argument is a prefix of "arr1", else arr2 iff a prefix of "arr2", else prints nothing |
| ArrayC.OnlyFullNameReachesArr2 | pkg/auth/basic/array.c:14-22 | every proper prefix of "arr2" is also one of "arr1", so arr2 runs only for the full name |
| ArrayC.PointerWalk | pkg/auth/basic/array.c:53-65 | a definitional identity of Deref: `*(p + i)` with p = balance + k reads element k + i, the same as moving the pointer first, and from the array's start it is `balance[i]` |
| ArrayC.Program.constructor | pkg/auth/basic/array.c:8 | nothing printed yet |
| ArrayC.Program.Run | pkg/auth/basic/array.c:8-25 | main returns 0 and prints exactly the chosen branch's output |
| ArrayC.Program.Arr1Demo | pkg/auth/basic/array.c:27-45 | n[i] is i+100 for all ten slots and the ten "ele[i] = n[i]" lines are printed |
| ArrayC.Program.Arr2Demo | pkg/auth/basic/array.c:47-69 | prints the pointer heading, the five elements through the pointer, the array heading and the five elements again; at each of the five positions the pointer walk and the array walk print the same value, the array's element |

## Left out

- Goroutines, channels, contexts and `sync.RWMutex` locking are not modelled. Every operation runs to completion on its own, and the accept loops are modelled one pass at a time (`ServeAcceptStep`).
- Socket I/O is not modelled. What a `Read` delivered, dial, resolve and listen outcomes, write errors and close errors are parameters of the operations that see them. The servers' `Start` (resolve and listen) is therefore not modelled.
- The `io.Copy` pumps are not modelled: SOCKS5's copy loops (`pkg/proxy/socks5/sock_conn.go:232-301`), the tunnels' `srcToDst`/`dstToSrc`, and `pkg/proxy/tcp/conn.go`'s `serveRead`. The model records only that copying started.
- SockFrames: the IPv6 branch of `ReadInstruction` calls `net.ParseIP` on raw bytes. Its text is a parameter (`ipv6Text`), not computed.
- `ReadUdpData` (`pkg/proxy/socks5/sock_frame.go:404-484`) is not modelled. Every branch slices one byte for a two-byte port and panics, and every path returns an error anyway.
- SockFrames.AsciiBytes: non-UTF-8 bytes in the local address are not modelled; it covers only the ASCII text `net.IP.String` produces.
- SockConns: the log line for a typed-nil destination on close is not modelled (logging is left out everywhere).
- Connection ids are `nat`. The Go counters are `uint64`, and their wrap-around after 2^64 connections is not modelled.
- HttpSvr: the text of `ErrNotTunnelProxy` is a placeholder ("not tunnel proxy"). The file that defines it is not part of this model. Only the identity of the error matters to the code.
- `pkg/proxy/tcp/conn.go` and the connection type of `proxy/http` are not part of this model, except for `Close`'s idempotence. Their connections are stand-ins with an id and flags (`TcpServers.Conn`, `HttpProxyServer.Conn`). Their start outcome is a parameter.
- Text.ScanTwo: it skips the blanks fmt's scanner skips within one line. Newline handling and Unicode spaces are not modelled.
- HttpPxy: the client's transport settings (timeouts, idle connections, HTTP/2) and the 2-second request context are not modelled. The outcome of `http.NewRequestWithContext` and `client.Do` is a parameter.
- HttpPxy1: the `io.Copy` error log in `ServeHTTP` is not modelled.
- HttpPxy1: the response header is modelled as a map. The order in which Go ranges over it does not matter to the result.
- CLogs: log rotation is not modelled, because it is clock and filesystem work. This covers `serve`, `getTodayEndSubNow`, the `os.OpenFile`/`os.Remove`/`os.Symlink` calls in `separateFile` and their panics. `SeparateFile` takes the date and the opened file as parameters.
- CLogs.CLog.Write: the number of bytes written and the error come from the underlying writer. They are a parameter (`result`), so a short write is not modelled.
- CLogs: `log.SetFlags`/`log.SetOutput` and the package-level `clog` variable are not modelled. The flag is kept as a field.
- Des: `GetRandCode` and `MakeTimestamp` (clock and float randomness) are not part of this model.
- DesString.StrEnc: the precondition on key lengths (not a multiple of 4) covers only the keys that are actually used. The code reaches the nil block only for those keys.
- ConstantC.Program.Run: requires `count >= 0`. `count` is a static that starts at 10 and `main` runs once. A negative count would make `while (count--)` run until the int wraps around, which is not modelled.
- ConstantC: the infinite `loop()` (`pkg/auth/basic/constant.c:111-119`) is not modelled. Nothing calls it, and it does not terminate.
- ConstantC: the unused `auto`/`register` locals of `saveClass` are not modelled.
- ArrayC: `%f` formatting of doubles is not modelled. The printed elements keep the value as a real.
- ArrayC: the unused arrays `balance`, `balance1` and `balance2` in `arr1` are not modelled.
- `pkg/auth/basic/data_type.c` is not part of this model. It only prints float limits and format flags.
