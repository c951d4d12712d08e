/** Client secrets and ideal encryption under them (crypto.py). */
module Crypto {
  import opened Wrappers
  import opened Outcome

  /** `_normalize_base64_padding`: restore padding that callers strip. */
  function NormalizePadding(key: string): string {
    if |key| % 4 == 2 then key + "==" else if |key| % 4 == 3 then key + "=" else key
  }

  /** The shape of a Fernet key: 32 bytes in base64, so 43 characters and one `=`. */
  predicate IsKey(key: string) {
    |key| == 44 && key[43] == '=' && key[42] != '='
  }

  /** `validate_key`: the secret a caller presents, as the key it names. */
  function ValidateKey(presented: string): Option<string> {
    if IsKey(NormalizePadding(presented)) then Some(NormalizePadding(presented)) else None
  }

  /** A token that only the key it was sealed under opens. */
  datatype Cipher = Cipher(key: string, plain: Body)

  /** `dumps`. */
  function Seal(key: string, plain: Body): Cipher { Cipher(key, plain) }

  /** `loads`: no value stands for `InvalidToken`. */
  function Open(key: string, c: Cipher): Option<Body> {
    var k := NormalizePadding(key);
    if IsKey(k) && k == c.key then Some(c.plain) else None
  }

  /** An issued secret is named by itself and by itself without padding, and by nothing else. */
  lemma SecretSpellings(key: string, presented: string)
    requires IsKey(key)
    ensures ValidateKey(presented) == Some(key) <==> presented == key || presented == key[..43]
  {
    var n := NormalizePadding(presented);
    if presented == key[..43] {
      assert n == key;
    }
    if n == key && |presented| % 4 == 3 {
      assert presented == n[..43];
    }
  }

  /** What is sealed under a key opens under every spelling of it, and under no other secret. */
  lemma SealOpens(key: string, plain: Body, presented: string)
    requires IsKey(key)
    ensures Open(presented, Seal(key, plain))
            == if presented == key || presented == key[..43] then Some(plain) else None
  {
    SecretSpellings(key, presented);
  }

  /** The text names the key: it is the key, or the key without its padding. */
  predicate Spells(presented: string, key: string) {
    IsKey(key) && (presented == key || presented == key[..43])
  }

  /** The text has the form of a secret, padded or not. */
  predicate WellFormed(presented: string) {
    IsKey(presented) || (|presented| == 43 && IsKey(presented + "="))
  }

  /** Validation takes exactly the well-formed texts, to the key each names. */
  lemma ValidatedSpells(presented: string)
    ensures ValidateKey(presented).Some? <==> WellFormed(presented)
    ensures ValidateKey(presented).Some? ==> Spells(presented, ValidateKey(presented).value)
  {
    var n := NormalizePadding(presented);
    if |presented| == 43 {
      assert n == presented + "=" && n[..43] == presented;
    }
    if |presented| % 4 == 2 {
      assert n[|presented|] == '=' && n[|presented| + 1] == '=';
    }
  }

  /** A validated secret opens a record exactly when the presented text names its key. */
  lemma OpensBySpelling(presented: string, c: Cipher)
    requires WellFormed(presented)
    ensures var secret := ValidateKey(presented);
            secret.Some? && Open(secret.value, c) == if Spells(presented, c.key) then Some(c.plain) else None
  {
    ValidatedSpells(presented);
    if IsKey(c.key) { SecretSpellings(c.key, presented); }
  }
}
