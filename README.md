# ESC/VP.net packet model

A Dafny model of libESCVP's packet vocabulary for the ESC/VP.net
projector-control protocol. The protocol is a vendor protocol with no public
standard.

- `escvp.dfy`, module `Packets`, models `include/ESCVP.h`. It holds the byte types
  (`uint8`, `uint16`, the 16-byte `Str16` used for `STR`) and the
  enumerations with their byte codes: `Identifier`, `Encoding`, `CmdType`,
  `PacketType` (the common part's `Type`) and `Status`. Each code has a decoder
  back to an `Option`. It also holds the `Header` record, the `CommonPart` with
  its default member initialisers, and `Packet`, which pairs a common part
  with a sequence of headers. A packet is `WellFormed` when `length` counts
  its headers. The C++ type does not enforce this, so it is a predicate.
- `strncpy.dfy`, module `BoundedCopy`, models the copy that the header
  constructors run. On non-Windows builds `strcpy_s(dest, 16, src)` is a
  macro for `strncpy(dest, src, 16)`. Section 7.24.2.4 of ISO/IEC 9899:2011
  describes `strncpy`: it copies bytes up to the first NUL, then fills the rest
  of the n bytes with NUL. If the source has no NUL among those n bytes, all n
  are copied and no terminator is written.
  - `StrNCpy` is the reference definition. It walks the source one byte at a time.
  - `StrNCpyInto` is the in-place loop over a `dest` array, proved equal to it.
- `headers.dfy`, module `HeaderConstructors`, models `src/ESCVP.cpp`. It has
  one method per C++ constructor, and each returns a `Header` value. The C++
  variants add no fields and the headers are stored by value in
  `std::vector<Header>`, so one datatype replaces the inheritance. Dafny has
  no overloading, so the no-argument constructors are named
  `NoPasswordHeader`, `NoNewPasswordHeader` and `NoProjectorNameHeader`.
  `IMTypeHeader` and `ProjectorCmdTypeHeader` keep their default argument 0x00.

The doc comments at include/ESCVP.h:103 and include/ESCVP.h:115 say that the
information bytes are all 0x00. The code disagrees: `IMTypeHeader`,
`ProjectorCmdTypeHeader` and the three no-argument constructors never write
`infomation`, and `Header` has no initialiser for it. The model follows the
code. Those methods take a freshly allocated, unwritten 16-byte array, so
nothing is known of its contents, and their contracts say nothing about the
buffer.

## Model

| member | source | states |
|---|---|---|
| `Packets.Identifier.Code` | include/ESCVP.h:31-39 | every identifier is coded by a byte from 0 to 5 (Null, Password, New_Password, Projector_Name, IM_Type, Projector_Cmd_Type in order) |
| `Packets.IdentifierOf` | include/ESCVP.h:31-39 | a byte names an identifier exactly when it is 0..5, and the named identifier's code is that byte |
| `Packets.Encoding.Code` | include/ESCVP.h:78-84 | every encoding is coded by a byte from 0 to 3 |
| `Packets.EncodingOf` | include/ESCVP.h:78-84 | a byte names an encoding exactly when it is 0..3 (Plain, US_ASCII, Shift_JIS, EUC_JP), and the encoding's code is that byte |
| `Packets.CmdType.Code` | include/ESCVP.h:119-123 | every command type is coded 0x16 or 0x21 |
| `Packets.CmdTypeOf` | include/ESCVP.h:119-123 | only 0x16 (ESC/VP Level 6) and 0x21 (ESC/VP21) name a command type, and the named type's code is that byte |
| `Packets.PacketType.Code` | include/ESCVP.h:134-140 | every packet type is coded by a byte from 0 to 3 |
| `Packets.PacketTypeOf` | include/ESCVP.h:134-140 | a byte names a packet type exactly when it is 0..3 (Null, HELLO, PASSWORD, CONNECT), and the named type's code is that byte |
| `Packets.Status.Code` | include/ESCVP.h:142-151 | every status is coded by one of the seven status bytes 0x00, 0x20, 0x40, 0x41, 0x45, 0x53, 0x55 |
| `Packets.StatusOf` | include/ESCVP.h:142-151 | a byte names a status exactly when it is one of 0x00, 0x20, 0x40, 0x41, 0x45, 0x53, 0x55, and the named status's code is that byte |
| `Packets.CodesRoundTrip` | include/ESCVP.h:31-151 | every enumerator's code decodes back to that enumerator, for all five enumerations |
| `Packets.StatusCodeInjective` | include/ESCVP.h:142-151 | two statuses have the same byte code exactly when they are the same status |
| `Packets.SignatureIsEscVpNet` | include/ESCVP.h:153 | the signature bytes 45 53 43 2F 56 50 2E 6E 65 74 are the ASCII text "ESC/VP.net" |
| `Packets.DefaultCommonPart` | include/ESCVP.h:153-158 | a default common part has the "ESC/VP.net" signature, version 0x10, type Null (code 0), reserved 0, status Null (code 0x00) and length 0 |
| `Packets.WellFormed` | include/ESCVP.h:158-161 | a packet is well-formed when its length byte counts the headers that follow, so a well-formed packet has at most 255 headers |
| `Packets.DefaultPacketWellFormed` | include/ESCVP.h:158-161 | a default common part is well-formed with a header sequence exactly when that sequence is empty |
| `Packets.CountingMakesWellFormed` | include/ESCVP.h:158-161 | setting length to the number of headers makes a packet well-formed whenever that number fits in a byte, and no well-formed packet has more than 255 headers |
| `BoundedCopy.StrNLen` | src/ESCVP.cpp:11-13 | the position of the first NUL within n bytes, or n: every byte before it is non-NUL and the byte at it is NUL |
| `BoundedCopy.StrNCpy` | src/ESCVP.cpp:11-13 | the reference strncpy: the bytes it leaves in dest, always exactly n of them |
| `BoundedCopy.StrNCpyAt` | src/ESCVP.cpp:11-13 | each byte of the copy before the source's first NUL equals the source byte, and each byte from that NUL on is NUL |
| `BoundedCopy.StrNCpySpec` | src/ESCVP.cpp:11-13 | the same two facts over all n positions: the prefix is preserved and the rest is zero padding |
| `BoundedCopy.StrNCpyUnterminated` | src/ESCVP.cpp:11-13 | a source with no NUL among its n bytes is copied whole, and the copy has no terminator |
| `BoundedCopy.StrNCpyKeepsString` | src/ESCVP.cpp:11-13 | the C string read back from the copy has the source's length and bytes |
| `BoundedCopy.StrNCpyIdempotent` | src/ESCVP.cpp:11-13 | copying the copy again gives the same bytes |
| `BoundedCopy.StrNCpyInto` | src/ESCVP.cpp:11-13 | the in-place copy into a buffer leaves exactly the reference copy in its first n bytes and changes nothing after them |
| `HeaderConstructors.NoPasswordHeader` | src/ESCVP.cpp:17-20 | identifier Password (code 1), attribute 0 |
| `HeaderConstructors.PasswordHeader` | src/ESCVP.cpp:21-25 | identifier Password (code 1), attribute 1, information is strncpy of the password into 16 bytes |
| `HeaderConstructors.NoNewPasswordHeader` | src/ESCVP.cpp:27-30 | identifier New_Password (code 2), attribute 0 |
| `HeaderConstructors.NewPasswordHeader` | src/ESCVP.cpp:31-35 | identifier New_Password (code 2), attribute 1, information is strncpy of the value into 16 bytes |
| `HeaderConstructors.NoProjectorNameHeader` | src/ESCVP.cpp:37-40 | identifier Projector_Name (code 3), attribute 0 |
| `HeaderConstructors.ProjectorNameHeader` | src/ESCVP.cpp:41-45 | identifier Projector_Name (code 3), the attribute decodes back to the given encoding, information is strncpy of the name into 16 bytes |
| `HeaderConstructors.IMTypeHeader` | src/ESCVP.cpp:47-50 | identifier IM_Type (code 4), attribute is the given model code unchanged |
| `HeaderConstructors.ProjectorCmdTypeHeader` | src/ESCVP.cpp:52-55 | identifier Projector_Cmd_Type (code 5), attribute is the given byte unchanged, whether or not it is a CmdType code |
| `HeaderConstructors.DefaultCodeHeaders` | include/ESCVP.h:105-125 | IMTypeHeader and ProjectorCmdTypeHeader called without an argument store attribute 0x00 |
| `HeaderConstructors.CopiedInformation` | src/ESCVP.cpp:21-45 | a string constructor's information keeps the caller's C string and is NUL after it; it has no terminator exactly when the caller's 16 bytes have none, and then it equals them |

## Left out

- The DLL export and visibility macros (include/ESCVP.h:9-17) are build plumbing.
- The Windows `strcpy_s` path is not modelled. There, an unterminated 16-byte source triggers the runtime-constraint handler, and that behaviour depends on the platform and library. The model gives the `strncpy` behaviour of every other build.
- The contents of `infomation` in constructors that never write it are not modelled. C leaves those bytes indeterminate, so the model constrains nothing there.
- Serialization, the wire byte order of `Reserved`, struct padding and `sizeof` are not modelled. The source has no encoder or decoder.
- The C++ mechanics are not modelled. The model has no inheritance and no slicing of variants into `Header`, and `std::pair` is a two-field datatype.
- The enum values hold only named enumerators in the model. In C++ an `enum class` value can hold any byte. That covers the fields `CommonPart::type` and `CommonPart::status`, and also the `enc` argument of `ProjectorNameHeader`, whose unnamed byte `static_cast<UCHAR>(enc)` would store as the attribute (src/ESCVP.cpp:43). Raw bytes enter the model only through the decoders (`StatusOf` and the others).
- The string arguments are always 16 bytes in the model. C++ also accepts a NUL-terminated string shorter than 16 bytes. `Str16` covers that input as the string followed by its NUL and any bytes up to 16, which `strncpy` never reads.
- The model uses unsigned bytes throughout. C `char` may be signed, but the signature bytes are all below 0x80, and `strncpy` copies bytes unchanged and tests only for NUL.
