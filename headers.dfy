/** The header constructors: each sets the identifier of its variant, then the
    attribute byte, and the string-taking ones then fill the 16-byte
    information buffer with strncpy. A constructor that never writes the
    buffer leaves whatever bytes its storage held: the buffer is allocated
    here without initialisation, so nothing is known of its contents, and the
    contracts say nothing of them. */
module HeaderConstructors {
  import opened Packets
  import opened BoundedCopy

  /** PasswordHeader(): no password. */
  method NoPasswordHeader() returns (h: Header)
    ensures h.identifier == Identifier.Password && h.identifier.Code() == 1
    ensures h.attribute == 0
  {
    var infomation := new uint8[InfoSize];
    h := Header(Identifier.Password, 0, infomation[..]);
  }

  /** PasswordHeader(password): a plain password, copied with strncpy. */
  method PasswordHeader(password: Str16) returns (h: Header)
    ensures h.identifier == Identifier.Password && h.identifier.Code() == 1
    ensures h.attribute == 1
    ensures h.infomation == StrNCpy(password, InfoSize)
  {
    var infomation := new uint8[InfoSize];
    StrNCpyInto(infomation, password, InfoSize);
    h := Header(Identifier.Password, 1, infomation[..]);
  }

  /** NewPasswordHeader(): no new password. */
  method NoNewPasswordHeader() returns (h: Header)
    ensures h.identifier == Identifier.NewPassword && h.identifier.Code() == 2
    ensures h.attribute == 0
  {
    var infomation := new uint8[InfoSize];
    h := Header(Identifier.NewPassword, 0, infomation[..]);
  }

  /** NewPasswordHeader(value): a plain new password, copied with strncpy. */
  method NewPasswordHeader(value: Str16) returns (h: Header)
    ensures h.identifier == Identifier.NewPassword && h.identifier.Code() == 2
    ensures h.attribute == 1
    ensures h.infomation == StrNCpy(value, InfoSize)
  {
    var infomation := new uint8[InfoSize];
    StrNCpyInto(infomation, value, InfoSize);
    h := Header(Identifier.NewPassword, 1, infomation[..]);
  }

  /** ProjectorNameHeader(): no projector name. */
  method NoProjectorNameHeader() returns (h: Header)
    ensures h.identifier == Identifier.ProjectorName && h.identifier.Code() == 3
    ensures h.attribute == 0
  {
    var infomation := new uint8[InfoSize];
    h := Header(Identifier.ProjectorName, 0, infomation[..]);
  }

  /** ProjectorNameHeader(enc, name): the attribute is the encoding's code
      and the name is copied with strncpy. */
  method ProjectorNameHeader(enc: Encoding, name: Str16) returns (h: Header)
    ensures h.identifier == Identifier.ProjectorName && h.identifier.Code() == 3
    ensures EncodingOf(h.attribute) == Some(enc)
    ensures h.infomation == StrNCpy(name, InfoSize)
  {
    var infomation := new uint8[InfoSize];
    StrNCpyInto(infomation, name, InfoSize);
    h := Header(Identifier.ProjectorName, enc.Code(), infomation[..]);
  }

  /** IMTypeHeader(im_type = 0x00): the model code is stored unchanged. */
  method IMTypeHeader(imType: uint8 := 0x00) returns (h: Header)
    ensures h.identifier == Identifier.ImType && h.identifier.Code() == 4
    ensures h.attribute == imType
  {
    var infomation := new uint8[InfoSize];
    h := Header(Identifier.ImType, imType, infomation[..]);
  }

  /** ProjectorCmdTypeHeader(cmd_type = 0x00): the command-set code is stored
      unchanged, whether or not it names a CmdType. */
  method ProjectorCmdTypeHeader(cmdType: uint8 := 0x00) returns (h: Header)
    ensures h.identifier == Identifier.ProjectorCmdType && h.identifier.Code() == 5
    ensures h.attribute == cmdType
  {
    var infomation := new uint8[InfoSize];
    h := Header(Identifier.ProjectorCmdType, cmdType, infomation[..]);
  }

  /** The buffer a string constructor fills keeps the caller's C string and
      is NUL from its end on; it holds no terminator exactly when the caller's
      16 bytes hold none, and then it is those 16 bytes. */
  lemma CopiedInformation(s: Str16)
    ensures var info := StrNCpy(s, InfoSize);
      && StrNLen(info, InfoSize) == StrNLen(s, InfoSize)
      && info[..StrNLen(s, InfoSize)] == s[..StrNLen(s, InfoSize)]
      && (forall i :: StrNLen(s, InfoSize) <= i < InfoSize ==> info[i] == 0)
      && ((forall i :: 0 <= i < InfoSize ==> s[i] != 0) <==> (forall i :: 0 <= i < InfoSize ==> info[i] != 0))
      && ((forall i :: 0 <= i < InfoSize ==> s[i] != 0) ==> info == s)
  {
    StrNCpyKeepsString(s, InfoSize);
    StrNCpySpec(s, InfoSize);
    if forall i :: 0 <= i < InfoSize ==> s[i] != 0 {
      StrNCpyUnterminated(s, InfoSize);
    }
  }

  /** Calls that rely on the default argument store code 0x00. */
  method DefaultCodeHeaders() returns (im: Header, cmd: Header)
    ensures im.identifier == Identifier.ImType && im.attribute == 0x00
    ensures cmd.identifier == Identifier.ProjectorCmdType && cmd.attribute == 0x00
  {
    im := IMTypeHeader();
    cmd := ProjectorCmdTypeHeader();
  }
}
