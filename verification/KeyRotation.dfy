/**
  Field encryption and key rotation (app/core/encryption.py and the row loop of
  alembic/versions/004_reencrypt_fields.py). Fernet is ideal: a token opens under the key it
  was made with and no other, and derivation is injective in secret and salt.
 */
module KeyRotation {
  import opened Common

  const STATIC_SALT := "agent-wallet:field-encryption:v1"

  datatype FernetKey = FernetKey(secret: string, salt: string)

  datatype Token = Token(key: FernetKey, text: string) | Garbage

  function Open(key: FernetKey, token: Token): Option<string> {
    if token.Token? && token.key == key then Some(token.text) else None
  }

  /** A stored value: with its own salt, or a bare token under the static salt. */
  datatype Cipher = V2(salt: string, token: Token) | Bare(token: Token)

  function SaltOf(c: Cipher): string {
    if c.V2? then c.salt else STATIC_SALT
  }

  function OpenWith(secret: string, c: Cipher): Option<string> {
    Open(FernetKey(secret, SaltOf(c)), c.token)
  }

  function Sealed(secret: string, salt: string, text: string): Cipher {
    V2(salt, Token(FernetKey(secret, salt), text))
  }

  /** SECRET_KEY, SECRET_KEY_PREVIOUS (empty: unset) and ALLOW_STATIC_SALT_FIELD_DECRYPTION. */
  datatype Settings = Settings(secret: string, previous: string, allowStatic: bool)

  /** What a value holds for someone with these keys. */
  function Plain(settings: Settings, c: Cipher): Option<string> {
    var p := OpenWith(settings.secret, c);
    if p.Some? || settings.previous == "" then p else OpenWith(settings.previous, c)
  }

  /** The value is in the current format under the current key. */
  predicate Current(secret: string, c: Cipher) {
    c.V2? && OpenWith(secret, c).Some?
  }

  /** What re-encryption leaves in place of a value, if it can be read. */
  function Renewed(settings: Settings, c: Cipher, salt: string): Option<Cipher> {
    if Current(settings.secret, c) then Some(c)
    else if Plain(settings, c).Some? then Some(Sealed(settings.secret, salt, Plain(settings, c).value))
    else None
  }

  datatype Change = Unreadable | Unchanged | Changed(c: Cipher)

  // ----- one process -----

  class Process {
    const settings: Settings
    var legacy: Option<FernetKey>
    var legacyPrevious: Option<FernetKey>

    constructor (settings: Settings)
      ensures this.settings == settings && legacy == None && legacyPrevious == None && Valid()
    {
      this.settings := settings;
      legacy, legacyPrevious := None, None;
    }

    /** The caches agree with fresh derivation. */
    ghost predicate Valid()
      reads this
    {
      && (legacy.Some? ==> legacy.value == FernetKey(settings.secret, STATIC_SALT))
      && (legacyPrevious.Some? ==> legacyPrevious.value == FernetKey(settings.previous, STATIC_SALT))
    }

    /**
      `_get_legacy_fernet`. The second cache does not record its secret: the result is the
      key derived for the secret exactly when the secret is a configured one, or the first asked for.
     */
    method LegacyFernet(secret: Option<string>) returns (key: FernetKey)
      requires Valid()
      modifies this
      ensures secret.None? || secret.value in {settings.secret, settings.previous} ==> Valid()
      ensures var asked := if secret.Some? then secret.value else settings.secret;
              key == FernetKey(asked, STATIC_SALT)
              <==> asked in {settings.secret, settings.previous} || old(legacyPrevious).None?
    {
      if secret.None? || secret.value == settings.secret {
        if legacy.None? {
          legacy := Some(FernetKey(settings.secret, STATIC_SALT));
        }
        return legacy.value;
      }
      if legacyPrevious.None? {
        legacyPrevious := Some(FernetKey(secret.value, STATIC_SALT));
      }
      return legacyPrevious.value;
    }

    /** `encrypt_field`; the random salt is a parameter. */
    method Encrypt(text: string, salt: string) returns (c: Cipher)
      ensures c == Sealed(settings.secret, salt, text)
      ensures Current(settings.secret, c) && OpenWith(settings.secret, c) == Some(text) == Plain(settings, c)
      ensures forall other :: other != settings.secret ==> OpenWith(other, c) == None
    {
      var key := FernetKey(settings.secret, salt);
      c := V2(salt, Token(key, text));
    }

    method DecryptV2(c: Cipher) returns (text: Option<string>)
      requires c.V2?
      ensures text == Plain(settings, c)
    {
      text := Open(FernetKey(settings.secret, c.salt), c.token);
      if text.Some? {
        return;
      }
      if settings.previous != "" {
        text := Open(FernetKey(settings.previous, c.salt), c.token);
      }
    }

    method DecryptLegacy(c: Cipher) returns (text: Option<string>)
      requires Valid() && c.Bare?
      modifies this
      ensures Valid() && text == Plain(settings, c)
    {
      var key := LegacyFernet(None);
      text := Open(key, c.token);
      if text.Some? {
        return;
      }
      if settings.previous != "" {
        key := LegacyFernet(Some(settings.previous));
        text := Open(key, c.token);
      }
    }

    /** `decrypt_field`; None for its exceptions. */
    method Decrypt(c: Cipher, allowStatic: Option<bool>) returns (text: Option<string>)
      requires Valid()
      modifies this
      ensures Valid()
      ensures text == if c.V2? || (if allowStatic.Some? then allowStatic.value else settings.allowStatic) then Plain(settings, c) else None
    {
      if c.V2? {
        text := DecryptV2(c);
        return;
      }
      var allow := if allowStatic.Some? then allowStatic.value else settings.allowStatic;
      if !allow {
        return None;
      }
      text := DecryptLegacy(c);
    }

    /** `re_encrypt_field` */
    method ReEncrypt(c: Cipher, salt: string) returns (change: Change)
      requires Valid()
      modifies this
      ensures Valid()
      ensures change.Unreadable? <==> Renewed(settings, c, salt).None?
      ensures change.Unchanged? <==> Current(settings.secret, c)
      ensures change.Changed? ==> Renewed(settings, c, salt) == Some(change.c)
    {
      if c.V2? {
        var text := Open(FernetKey(settings.secret, c.salt), c.token);
        if text.Some? {
          return Unchanged;
        }
      }
      var text := Decrypt(c, Some(true));
      if text.None? {
        return Unreadable;
      }
      var renewed := Encrypt(text.value, salt);
      return Changed(renewed);
    }
  }

  // ----- the pass over all rows -----

  /** A row with its two encrypted columns; None for NULL and for the empty string. */
  datatype Swap = Swap(id: int, preimage: Option<Cipher>, claimKey: Option<Cipher>)

  predicate Readable(settings: Settings, field: Option<Cipher>) {
    field.Some? ==> Plain(settings, field.value).Some?
  }

  predicate RowReadable(settings: Settings, swap: Swap) {
    Readable(settings, swap.preimage) && Readable(settings, swap.claimKey)
  }

  predicate AllReadable(settings: Settings, swaps: seq<Swap>) {
    forall i :: 0 <= i < |swaps| ==> RowReadable(settings, swaps[i])
  }

  function RenewedField(settings: Settings, field: Option<Cipher>, salt: string): Option<Cipher>
    requires Readable(settings, field)
  {
    if field.Some? then Renewed(settings, field.value, salt) else None
  }

  function RenewedRow(settings: Settings, swap: Swap, salts: (string, string)): Swap
    requires RowReadable(settings, swap)
  {
    swap.(preimage := RenewedField(settings, swap.preimage, salts.0), claimKey := RenewedField(settings, swap.claimKey, salts.1))
  }

  /** The table after a pass; each row is given two random salts. */
  function Pass(settings: Settings, swaps: seq<Swap>, salts: seq<(string, string)>): seq<Swap>
    requires AllReadable(settings, swaps) && |salts| == |swaps|
  {
    seq(|swaps|, i requires 0 <= i < |swaps| => RenewedRow(settings, swaps[i], salts[i]))
  }

  class Table {
    var swaps: seq<Swap>

    constructor (swaps: seq<Swap>)
      ensures this.swaps == swaps
    {
      this.swaps := swaps;
    }

    /** The migration; a value that no key reads fails it, and its transaction is rolled back. */
    method Upgrade(process: Process, salts: seq<(string, string)>) returns (ok: bool)
      requires process.Valid() && |salts| == |swaps|
      modifies this, process
      ensures process.Valid()
      ensures ok <==> AllReadable(process.settings, old(swaps))
      ensures swaps == if ok then Pass(process.settings, old(swaps), salts) else old(swaps)
    {
      hide Plain, Renewed, Current;
      ghost var was, settings := swaps, process.settings;
      var rows := swaps;
      for k := 0 to |rows|
        invariant process.Valid() && |swaps| == |was|
        invariant forall i :: 0 <= i < k ==> RowReadable(settings, was[i]) && swaps[i] == RenewedRow(settings, was[i], salts[i])
        invariant forall i :: k <= i < |was| ==> swaps[i] == was[i]
      {
        var preimage := rows[k].preimage;
        if preimage.Some? {
          var change := process.ReEncrypt(preimage.value, salts[k].0);
          RenewedSome(settings, preimage.value, salts[k].0);
          if change.Unreadable? {
            swaps := rows;
            return false;
          }
          if change.Changed? {
            preimage := Some(change.c);
          }
        }
        var claimKey := rows[k].claimKey;
        if claimKey.Some? {
          var change := process.ReEncrypt(claimKey.value, salts[k].1);
          RenewedSome(settings, claimKey.value, salts[k].1);
          if change.Unreadable? {
            swaps := rows;
            return false;
          }
          if change.Changed? {
            claimKey := Some(change.c);
          }
        }
        swaps := swaps[k := rows[k].(preimage := preimage, claimKey := claimKey)];
      }
      assert swaps == Pass(settings, was, salts);
      return true;
    }
  }

  lemma RenewedSome(settings: Settings, c: Cipher, salt: string)
    ensures Renewed(settings, c, salt).Some? <==> Plain(settings, c).Some?
    ensures Current(settings.secret, c) ==> Renewed(settings, c, salt) == Some(c)
  {
  }

  // ----- rotations -----

  /** The plaintexts of the two columns. */
  datatype Texts = Texts(preimage: Option<string>, claimKey: Option<string>)

  predicate FieldHolds(secret: string, field: Option<Cipher>, text: Option<string>) {
    if field.Some? then OpenWith(secret, field.value) == text && text.Some? else text.None?
  }

  /** With this key alone, the row reads as these texts. */
  predicate RowHolds(secret: string, swap: Swap, texts: Texts) {
    FieldHolds(secret, swap.preimage, texts.preimage) && FieldHolds(secret, swap.claimKey, texts.claimKey)
  }

  predicate RowCurrent(secret: string, swap: Swap) {
    && (swap.preimage.Some? ==> Current(secret, swap.preimage.value))
    && (swap.claimKey.Some? ==> Current(secret, swap.claimKey.value))
  }

  ghost predicate Holds(secret: string, swaps: seq<Swap>, texts: seq<Texts>) {
    |swaps| == |texts| && forall i :: 0 <= i < |swaps| ==> RowHolds(secret, swaps[i], texts[i])
  }

  ghost predicate AllCurrent(secret: string, swaps: seq<Swap>) {
    forall i :: 0 <= i < |swaps| ==> RowCurrent(secret, swaps[i])
  }

  /** A deployment: its key, its table, and what was stored. */
  datatype State = State(secret: string, swaps: seq<Swap>, texts: seq<Texts>)

  /** Store a new row, or change the key (keeping the old one as previous) and run a pass in a fresh process. */
  datatype Step =
    | Store(id: int, texts: Texts, salt: (string, string))
    | Rotate(secret: string, salts: seq<(string, string)>)

  function SealedField(secret: string, text: Option<string>, salt: string): Option<Cipher> {
    if text.Some? then Some(Sealed(secret, salt, text.value)) else None
  }

  function Rotation(s: State, step: Step): Settings
    requires step.Rotate?
  {
    Settings(step.secret, s.secret, false)
  }

  ghost predicate Enabled(s: State, step: Step) {
    step.Rotate? ==> step.secret != "" && |step.salts| == |s.swaps|
  }

  /** A pass that fails leaves the table as it was. */
  ghost function Apply(s: State, step: Step): State
    requires Enabled(s, step)
  {
    match step
    case Store(id, texts, salt) =>
      s.(swaps := s.swaps + [Swap(id, SealedField(s.secret, texts.preimage, salt.0), SealedField(s.secret, texts.claimKey, salt.1))],
         texts := s.texts + [texts])
    case Rotate(secret, salts) =>
      var settings := Rotation(s, step);
      State(secret, if AllReadable(settings, s.swaps) then Pass(settings, s.swaps, salts) else s.swaps, s.texts)
  }

  ghost predicate Runs(s: State, steps: seq<Step>)
    decreases |steps|
  {
    steps == [] || (Enabled(s, steps[0]) && Runs(Apply(s, steps[0]), steps[1..]))
  }

  ghost function Exec(s: State, steps: seq<Step>): State
    requires Runs(s, steps)
    decreases |steps|
  {
    if steps == [] then s else Exec(Apply(s, steps[0]), steps[1..])
  }

  lemma FieldKept(settings: Settings, field: Option<Cipher>, text: Option<string>, salt: string)
    requires settings.previous != "" && FieldHolds(settings.previous, field, text)
    ensures Readable(settings, field)
    ensures FieldHolds(settings.secret, RenewedField(settings, field, salt), text)
    ensures RenewedField(settings, field, salt).Some? ==> Current(settings.secret, RenewedField(settings, field, salt).value)
  {
  }

  /** A pass after a rotation can always be made, loses nothing, and leaves all values under the new key alone. */
  lemma RotationKeeps(settings: Settings, swaps: seq<Swap>, texts: seq<Texts>, salts: seq<(string, string)>)
    requires settings.previous != "" && Holds(settings.previous, swaps, texts) && |salts| == |swaps|
    ensures AllReadable(settings, swaps)
    ensures Holds(settings.secret, Pass(settings, swaps, salts), texts)
    ensures AllCurrent(settings.secret, Pass(settings, swaps, salts))
  {
    hide FieldHolds, RenewedField, Current, Readable;
    forall i | 0 <= i < |swaps|
      ensures RowReadable(settings, swaps[i])
      ensures RowHolds(settings.secret, RenewedRow(settings, swaps[i], salts[i]), texts[i])
      ensures RowCurrent(settings.secret, RenewedRow(settings, swaps[i], salts[i]))
    {
      FieldKept(settings, swaps[i].preimage, texts[i].preimage, salts[i].0);
      FieldKept(settings, swaps[i].claimKey, texts[i].claimKey, salts[i].1);
    }
  }

  /** A pass over values that are all current changes nothing, whatever the previous key and the salts. */
  lemma SecondPassIdle(settings: Settings, swaps: seq<Swap>, salts: seq<(string, string)>)
    requires AllCurrent(settings.secret, swaps) && |salts| == |swaps|
    ensures AllReadable(settings, swaps) && Pass(settings, swaps, salts) == swaps
  {
    forall i | 0 <= i < |swaps| ensures RowReadable(settings, swaps[i]) && RenewedRow(settings, swaps[i], salts[i]) == swaps[i] {
      assert RowCurrent(settings.secret, swaps[i]);
    }
  }

  lemma StepKeeps(s: State, step: Step)
    requires s.secret != "" && Holds(s.secret, s.swaps, s.texts) && Enabled(s, step)
    ensures step.Rotate? ==> AllReadable(Rotation(s, step), s.swaps)
    ensures var t := Apply(s, step);
            && t.secret != "" && Holds(t.secret, t.swaps, t.texts) && s.texts <= t.texts
            && (step.Rotate? || AllCurrent(s.secret, s.swaps) ==> AllCurrent(t.secret, t.swaps))
  {
    if step.Rotate? {
      RotationKeeps(Rotation(s, step), s.swaps, s.texts, step.salts);
    }
  }

  /**
    Over every history of stored rows and rotations, each followed by a pass: all that was
    ever stored reads as it was stored with the current key alone; and after the first
    rotation (or from the start, if nothing was in an old format) one more pass changes nothing.
   */
  lemma {:induction false} RotationsKeep(s: State, steps: seq<Step>, settings: Settings, salts: seq<(string, string)>)
    requires s.secret != "" && Holds(s.secret, s.swaps, s.texts) && Runs(s, steps)
    requires settings.secret == Exec(s, steps).secret && |salts| == |Exec(s, steps).swaps|
    ensures var t := Exec(s, steps);
            && Holds(t.secret, t.swaps, t.texts) && s.texts <= t.texts
            && ((exists i :: 0 <= i < |steps| && steps[i].Rotate?) || AllCurrent(s.secret, s.swaps) ==>
                  AllCurrent(t.secret, t.swaps) && AllReadable(settings, t.swaps) && Pass(settings, t.swaps, salts) == t.swaps)
    decreases |steps|
  {
    hide Holds, Enabled, Apply, AllCurrent, AllReadable, Pass;
    if steps == [] {
      if AllCurrent(s.secret, s.swaps) {
        SecondPassIdle(settings, s.swaps, salts);
      }
    } else {
      StepKeeps(s, steps[0]);
      assert forall i :: 1 <= i < |steps| ==> steps[i] == steps[1..][i - 1];
      RotationsKeep(Apply(s, steps[0]), steps[1..], settings, salts);
    }
  }
}
