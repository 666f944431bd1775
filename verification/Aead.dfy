/** internal/storage/encryption.go: authenticated encryption, idealised. A ciphertext is a
    value that remembers the key and the associated data it was sealed with, so it opens for
    exactly that pair. Nonces are left out: nothing in the program depends on them. */
module Aead {
  import opened Wrappers

  /** A 32-byte key: random bytes kept in a key file, or Argon2id of a passphrase and a salt. */
  datatype Key = AutoKey(bytes: nat) | Derived(passphrase: string, salt: string)

  /** The text of one column, or the body of one audit line. */
  datatype Text = Plain(s: string) | Sealed(key: Key, aad: string, plain: Text)

  const EMPTY := Plain("")

  function Seal(key: Key, aad: string, plain: Text): Text {
    Sealed(key, aad, plain)
  }

  function Open(key: Key, aad: string, cipher: Text): Option<Text> {
    if cipher.Sealed? && cipher.key == key && cipher.aad == aad then Some(cipher.plain) else None
  }

  /** What base64.StdEncoding.DecodeString accepts: line breaks aside, groups of four
      alphabet characters, the last group padded with at most two '='. */
  predicate IsBase64(s: string) {
    var t := DropLineBreaks(s);
    var pad := if |t| >= 2 && t[|t|-2] == '=' && t[|t|-1] == '=' then 2
               else if |t| >= 1 && t[|t|-1] == '=' then 1 else 0;
    |t| % 4 == 0 && forall i :: 0 <= i < |t| - pad ==> InAlphabet(t[i])
  }

  predicate InAlphabet(c: char) {
    'A' <= c <= 'Z' || 'a' <= c <= 'z' || '0' <= c <= '9' || c == '+' || c == '/'
  }

  function DropLineBreaks(s: string): string {
    if |s| == 0 then ""
    else if s[0] == '\r' || s[0] == '\n' then DropLineBreaks(s[1..])
    else [s[0]] + DropLineBreaks(s[1..])
  }

  lemma {:induction false} DropLineBreaksJoins(a: string, b: string)
    ensures DropLineBreaks(a + b) == DropLineBreaks(a) + DropLineBreaks(b)
  {
    if |a| == 0 {
      assert a + b == b;
    } else {
      assert (a + b)[1..] == a[1..] + b && (a + b)[0] == a[0];
      DropLineBreaksJoins(a[1..], b);
    }
  }

  lemma DropLineBreaksOfOne(c: char)
    ensures DropLineBreaks([c]) == if c == 10 as char || c == 13 as char then "" else [c]
  {
  }

  /** Line breaks do not count; of the rest a multiple of four, with at most two '=' at the end. */
  lemma {:induction false} IsBase64Iff(s: string)
    ensures IsBase64(s) <==>
              var t := DropLineBreaks(s);
              |t| % 4 == 0 && (Padded(t, 0) || Padded(t, 1) || Padded(t, 2))
  {
    var t := DropLineBreaks(s);
    assert !InAlphabet('=');
    if IsBase64(s) {
      var pad := if |t| >= 2 && t[|t|-2] == '=' && t[|t|-1] == '=' then 2 else if |t| >= 1 && t[|t|-1] == '=' then 1 else 0;
      assert Padded(t, pad);
    }
  }

  predicate Padded(t: string, pad: nat) {
    && pad <= |t|
    && (forall i :: 0 <= i < |t| - pad ==> 'A' <= t[i] <= 'Z' || 'a' <= t[i] <= 'z' || '0' <= t[i] <= '9' || t[i] == '+' || t[i] == '/')
    && (forall i :: |t| - pad <= i < |t| ==> t[i] == '=')
  }

  /** Ciphertext is stored base64-encoded, so it always decodes. */
  predicate Decodes(t: Text) {
    t.Sealed? || IsBase64(t.s)
  }

  function MessageAad(messageId: string, conversationId: string, role: string): string {
    messageId + "\0" + conversationId + "\0" + role
  }

  predicate NulFree(s: string) {
    forall i :: 0 <= i < |s| ==> s[i] != '\0'
  }

  /** The NUL separators make the associated data of two messages differ unless they agree on id,
      conversation and role, even if the conversation ids, which clients choose, hold NULs too. */
  lemma {:induction false} MessageAadInjective(m: string, c: string, r: string, m': string, c': string, r': string)
    requires NulFree(m) && NulFree(r) && NulFree(m') && NulFree(r')
    requires MessageAad(m, c, r) == MessageAad(m', c', r')
    ensures m == m' && c == c' && r == r'
  {
    var tail, tail' := c + "\0" + r, c' + "\0" + r';
    assert MessageAad(m, c, r) == m + "\0" + tail && MessageAad(m', c', r') == m' + "\0" + tail';
    CutAtNul(m, tail, m', tail');
    CutAtLastNul(c, r, c', r');
  }

  lemma {:induction false} CutAtNul(a: string, x: string, b: string, y: string)
    requires NulFree(a) && NulFree(b)
    requires a + "\0" + x == b + "\0" + y
    ensures a == b && x == y
  {
    var s := a + "\0" + x;
    assert s[|a|] == '\0' && s[|b|] == '\0';
    assert |a| == |b|;
    assert a == s[..|a|] && b == s[..|b|];
    assert x == s[|a| + 1..] && y == s[|b| + 1..];
  }

  lemma {:induction false} CutAtLastNul(a: string, x: string, b: string, y: string)
    requires NulFree(x) && NulFree(y)
    requires a + "\0" + x == b + "\0" + y
    ensures a == b && x == y
  {
    var s := a + "\0" + x;
    assert s[|a|] == '\0' && s[|b|] == '\0';
    assert |a| == |b|;
    assert a == s[..|a|] && b == s[..|b|];
    assert x == s[|a| + 1..] && y == s[|b| + 1..];
  }

  /** A ciphertext copied into another message's row does not open there. */
  lemma {:induction false} MovedCiphertextFails(key: Key, plain: Text, m: string, c: string, r: string, m': string, c': string, r': string)
    requires NulFree(m) && NulFree(r) && NulFree(m') && NulFree(r')
    ensures Open(key, MessageAad(m', c', r'), Seal(key, MessageAad(m, c, r), plain)).Some?
       <==> m == m' && c == c' && r == r'
  {
    if MessageAad(m, c, r) == MessageAad(m', c', r') {
      MessageAadInjective(m, c, r, m', c', r');
    }
  }
}
