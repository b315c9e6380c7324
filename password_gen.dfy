/** The password generator both modals carry: sixteen characters, each drawn
    from a fixed character set. The random draw is an oracle of indices. */
module PasswordGen {

  const PasswordLength: nat := 16

  /** The character set, as written in both modals. */
  const Charset: string :=
    "abcdefghijklmnopqrstuvwxyzABCDEFGHIJKLMNOPQRSTUVWXYZ0123456789!@#$%^&*()_+-=[]{}|;:,.<>?"

  /** An index `Math.floor(Math.random() * charset.length)` can produce. */
  type Draw = i: nat | i < |Charset|

  /** The literal holds 88 characters. */
  lemma CharsetSize()
    ensures |Charset| == 88
  {
  }

  /** `generatePassword`'s loop: `draw(i)` is the index drawn at step `i`. */
  method GeneratePassword(draw: nat -> Draw) returns (password: string)
    ensures |password| == PasswordLength
    ensures forall k :: 0 <= k < PasswordLength ==> password[k] == Charset[draw(k)]
    ensures forall c :: c in password ==> c in Charset
  {
    password := "";
    var i := 0;
    while i < PasswordLength
      invariant 0 <= i <= PasswordLength
      invariant |password| == i
      invariant forall k :: 0 <= k < i ==> password[k] == Charset[draw(k)]
    {
      password := password + [Charset[draw(i)]];
      i := i + 1;
    }
  }
}
