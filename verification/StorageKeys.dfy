/** Storage keys of uploaded objects.  Strings stand for Go's byte strings, one
    character a byte. */
module StorageKeys {
  const ATTACHMENTS := "attachments/"
  const AVATARS := "avatars/"
  const EXT_MAX_LEN := 8
  const UUID_LEN := 36

  /** The text form of a UUID: 36 characters, none of them a slash. */
  type Uuid = s: string | |s| == UUID_LEN && '/' !in s witness "00000000-0000-0000-0000-000000000000"

  /** path.Ext: the suffix from the last dot of the last path element. */
  function Ext(path: string): (ext: string)
    ensures |ext| <= |path| && ext == path[|path| - |ext|..]
    ensures '/' !in ext
    ensures ext != "" ==> ext[0] == '.' && '.' !in ext[1..]
    ensures ext == "" ==> forall i | 0 <= i < |path| && path[i] == '.' :: '/' in path[i..]
  {
    ExtWithin(path, |path|)
  }

  /** The scan from the right, with path[i..] already free of dots and slashes. */
  function ExtWithin(path: string, i: nat): (ext: string)
    requires i <= |path| && '/' !in path[i..] && '.' !in path[i..]
    ensures |ext| <= |path| && ext == path[|path| - |ext|..]
    ensures '/' !in ext
    ensures ext != "" ==> ext[0] == '.' && '.' !in ext[1..]
    ensures ext == "" ==> forall j | 0 <= j < |path| && path[j] == '.' :: '/' in path[j..]
  {
    if i == 0 then ""
    else if path[i - 1] == '/' then
      assert forall j | 0 <= j < i - 1 :: path[j..][i - 1 - j] == '/';
      assert forall j | i <= j < |path| :: path[j] == path[i..][j - i];
      ""
    else if path[i - 1] == '.' then
      assert path[i - 1..][1..] == path[i..];
      path[i - 1..]
    else
      assert path[i - 1..] == [path[i - 1]] + path[i..];
      ExtWithin(path, i - 1)
  }

  /** strings.ToLower is a parameter: lower-casing beyond ASCII is not spelled out. */
  function SanitizeExt(lower: string -> string, filename: string): (ext: string)
    ensures |ext| <= 8 && ext <= lower(Ext(filename))
    ensures ext == lower(Ext(filename)) || |ext| == 8
    ensures (forall s :: '/' !in s ==> '/' !in lower(s)) ==> '/' !in ext
  {
    var ext := lower(Ext(filename));
    if |ext| > EXT_MAX_LEN then ext[..EXT_MAX_LEN] else ext
  }

  function AttachmentKey(id: Uuid, ext: string): string {
    ATTACHMENTS + id + ext
  }

  function AvatarKey(user: Uuid, id: Uuid, ext: string): string {
    AVATARS + user + "/" + id + ext
  }

  /** The layout of the keys. */
  lemma KeysAre(user: Uuid, id: Uuid, ext: string)
    ensures AttachmentKey(id, ext) == "attachments/" + id + ext
    ensures AvatarKey(user, id, ext) == "avatars/" + user + "/" + id + ext
    ensures |user| == 36 && |id| == 36
  {
  }

  /** The random part of an attachment key, found again by position. */
  predicate IsAttachmentKey(key: string) {
    |key| >= |ATTACHMENTS| + UUID_LEN && key[..|ATTACHMENTS|] == ATTACHMENTS
  }

  function UuidOf(key: string): string
    requires IsAttachmentKey(key)
  {
    key[|ATTACHMENTS|..|ATTACHMENTS| + UUID_LEN]
  }

  /** Whatever the extension, the key gives back the uuid it was drawn with. */
  lemma KeyHoldsUuid(id: Uuid, ext: string)
    ensures IsAttachmentKey(AttachmentKey(id, ext))
    ensures UuidOf(AttachmentKey(id, ext)) == id
  {
    var key := AttachmentKey(id, ext);
    assert key[..|ATTACHMENTS|] == ATTACHMENTS;
    assert key[|ATTACHMENTS|..|ATTACHMENTS| + UUID_LEN] == id;
  }

  /** Two uploads share a key exactly when they drew the same uuid and the same extension. */
  lemma AttachmentKeyInjective(a: Uuid, e: string, b: Uuid, f: string)
    ensures AttachmentKey(a, e) == AttachmentKey(b, f) <==> a == b && e == f
  {
    KeyHoldsUuid(a, e);
    KeyHoldsUuid(b, f);
    assert AttachmentKey(a, e)[|ATTACHMENTS| + UUID_LEN..] == e;
    assert AttachmentKey(b, f)[|ATTACHMENTS| + UUID_LEN..] == f;
  }

  lemma AvatarKeyInjective(u: Uuid, a: Uuid, e: string, v: Uuid, b: Uuid, f: string)
    ensures AvatarKey(u, a, e) == AvatarKey(v, b, f) <==> u == v && a == b && e == f
  {
    var k, l := AvatarKey(u, a, e), AvatarKey(v, b, f);
    var m := |AVATARS|;
    var n := m + UUID_LEN + 1;
    assert k[m..m + UUID_LEN] == u && l[m..m + UUID_LEN] == v;
    assert k[n..n + UUID_LEN] == a && l[n..n + UUID_LEN] == b;
    assert k[n + UUID_LEN..] == e && l[n + UUID_LEN..] == f;
  }

  /** The two kinds of keys never meet. */
  lemma PrefixesDisjoint(user: Uuid, a: Uuid, e: string, key: string)
    requires IsAttachmentKey(key)
    ensures key != AvatarKey(user, a, e)
  {
    assert AvatarKey(user, a, e)[1] == 'v';
    assert key[1] == key[..|ATTACHMENTS|][1] == 't';
  }

  /** A file name cannot move its object to another directory: what follows the
      prefix contains no slash. */
  lemma KeyStaysInDirectory(lower: string -> string, id: Uuid, filename: string)
    requires forall s :: '/' !in s ==> '/' !in lower(s)
    ensures var key := AttachmentKey(id, SanitizeExt(lower, filename));
      && IsAttachmentKey(key)
      && '/' !in key[|ATTACHMENTS|..]
      && |key| <= |ATTACHMENTS| + UUID_LEN + EXT_MAX_LEN
  {
    var ext := SanitizeExt(lower, filename);
    KeyHoldsUuid(id, ext);
    assert AttachmentKey(id, ext)[|ATTACHMENTS|..] == id + ext;
  }
}
