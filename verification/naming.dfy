/** A value that may be missing. */
module Optional {
  datatype Option<T> = None | Some(value: T)
}

/** Identities, content hashes and portable names shared by the other modules. */
module Ids {

  /** A UUID is the number its bytes spell, so byte comparison is `<`. Numbers are not cut off at 128 bits: new ids
      never run out. */
  type Uuid = nat

  const NIL: Uuid := 0

  const MAX_INT64: nat := 0x7FFF_FFFF_FFFF_FFFF

  /** Non-nil with the RFC 4122 variant bits. */
  predicate ValidObjectId(id: Uuid) {
    id != NIL && (id / 0x4000_0000_0000_0000) % 4 == 2
  }

  /** An object id whose version nibble is 7. */
  predicate ValidOperationId(id: Uuid) {
    ValidObjectId(id) && (id / 0x1000_0000_0000_0000_0000) % 16 == 7
  }

  newtype Byte = b: int | 0 <= b < 256

  /** A blob hash column; a SHA-256 value has 32 bytes. */
  type Hash = seq<Byte>

  const HASH_SIZE: nat := 32
}

/** The portable component rules of the naming package (Unicode normal form is not modelled). */
module Naming {

  const MAX_COMPONENT_BYTES: nat := 180

  function Utf8Width(c: char): nat {
    if c as int < 0x80 then 1 else if c as int < 0x800 then 2 else if c as int < 0x1_0000 then 3 else 4
  }

  function Utf8Length(s: string): nat {
    if s == "" then 0 else Utf8Width(s[0]) + Utf8Length(s[1..])
  }

  predicate ForbiddenChar(c: char) {
    c as int < 0x20 || c in "<>:\"/\\|?*"
  }

  function Upper(c: char): char {
    if 'a' <= c <= 'z' then (c as int - 32) as char else c
  }

  function ToUpper(s: string): string {
    if s == "" then "" else [Upper(s[0])] + ToUpper(s[1..])
  }

  function TrimRightSpaceDot(s: string): string {
    if s != "" && s[|s| - 1] in " ." then TrimRightSpaceDot(s[..|s| - 1]) else s
  }

  function BeforeDot(s: string): string {
    if s == "" || s[0] == '.' then "" else [s[0]] + BeforeDot(s[1..])
  }

  predicate ReservedWindowsDevice(name: string) {
    var stem := ToUpper(TrimRightSpaceDot(BeforeDot(name)));
    || stem in ["CON", "PRN", "AUX", "NUL", "CONIN$", "CONOUT$"]
    || (|stem| == 4 && stem[..3] in ["COM", "LPT"] && (stem[3] in "123456789" || stem[3] in "\U{B9}\U{B2}\U{B3}"))
  }

  predicate ValidComponent(name: string) {
    && name != ""
    && Utf8Length(name) <= MAX_COMPONENT_BYTES
    && (forall i :: 0 <= i < |name| ==> !ForbiddenChar(name[i]))
    && name[|name| - 1] !in " ."
    && !ReservedWindowsDevice(name)
  }

  /** A relative path is its list of components. */
  type Path = seq<string>

  /** The path as one string. */
  function Joined(path: Path): string {
    if path == [] then "" else if |path| == 1 then path[0] else Joined(path[..|path| - 1]) + "/" + path[|path| - 1]
  }

  /** The order of strings by their characters. */
  predicate Less(a: string, b: string) {
    b != "" && (a == "" || a[0] < b[0] || (a[0] == b[0] && Less(a[1..], b[1..])))
  }

  lemma SingleLetter(c: char)
    requires 'a' <= c <= 'z'
    ensures ValidComponent([c])
  {
    var s := [c];
    assert s[1..] == "" && Utf8Length(s) == 1;
    assert s[|s| - 1] == c && c !in " .";
    assert TrimRightSpaceDot(s) == s;
    assert BeforeDot(s) == s;
    assert |ToUpper(s)| == 1;
  }
}
