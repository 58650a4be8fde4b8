# FinHub credential disclosure, modelled in Dafny

This project models the accounts app of the FinHub banking demo. When a bank
account is created, or when a card is created for an account that has not been
served yet, the app emails the owner one time. The email carries the IBAN, a
freshly generated PIN and, when the account has an active card, the details of
its most recently issued active card with the real CVV. The account is then
marked as served (`credentials_sent`) and that card's real PAN and CVV are
erased. Two pure helpers go with it: `generate_pin` and `mask_iban`.

Files and modules:

- `wrappers.dfy` (`Wrappers`): the `Option` type used for nullable fields.
- `utils.dfy` (`Utils`): `generate_pin` as `GeneratePin`, a function of the
  PIN length and of a stream of digit choices. Also `mask_iban` as
  `MaskIban`, with lemmas about both.
- `secrets.dfy` (`Secrets`): `RandomSource`, the state behind
  `secrets.choice`. It hands out an arbitrary but fixed stream of draws in
  order, so each `generate_pin` call gets fresh draws. It keeps a ghost log
  `issued` of every PIN it has produced.
- `signals.dfy` (`Signals`): the classes `Card` and `Account`.
  - `Account.TrySendCredentials` is `try_send_credentials`.
  - `Account.CreatedSetPinAndNotify` is the account `post_save` handler.
  - `Card.CreatedTryNotify` is the card `post_save` handler.
  - The email transport is the ghost field `Account.outbox`, an append-only log
    of `(subject, recipients, context)` entries.
  - `Account.Valid()` says an account has sent at most one email, and none while
    it is unserved. Every handler preserves it.
  - `Account.Replay` runs any sequence of save events through the handlers. It
    proves at most one disclosure per account, a flag that never resets, and an
    outbox that only grows.
  - `SelectionScenario`, `ScrubScenario` and `CardAfterAccountScenario` are
    client methods: worked scenarios of the handlers, whose assertions are
    proved from the contracts alone.

Modelling decisions:

- Fields this code only reads (`active`, `issued_at`, `circuit`, `pan_last4`,
  the expiry, the user, the IBAN) are `const`. The fields it writes are `var`:
  `pin`, `credentials_sent`, `cvv_real`, `pan_real`.
- Python truthiness of a nullable text field (`not account.pin`,
  `if card.cvv_real`) is `Filled`: the value is neither `None` nor `""`.
- `set_pin` is the uninterpreted constant `Account.encode`. The model assumes
  only that its result is non-empty.
- When the account is still unserved, `try_send_credentials` rotates the PIN
  in both branches of `if not account.pin`. The model keeps both branches as
  written, so the PIN is rotated even when one was already set.
- `cards.filter(active=True).order_by('-issued_at').first()` is a loop over
  `Account.cards`. Its contract allows any maximal card.
- The saves inside `try_send_credentials` (`save(update_fields=...)`) set off
  `post_save` with `created=False`, and both handlers do nothing on that. So
  these nested dispatches are not modelled.
- `Account.Attach` stands for the persistence layer storing a new card, which
  makes it part of `account.cards`.

Behaviour worth noting:

- For `n <= 0`, `generate_pin` returns the empty string, because `range(n)`
  is empty. It does not fail.
- Erased card secrets become `None`, not an empty string.
- After a disclosure, the stored PIN is whatever `set_pin` stores for the
  fresh PIN (`Account.encode`).

## Model

| member | source | states |
|---|---|---|
| `Utils.GeneratePin` | source_code/accounts/utils.py:7-8 | the PIN has `n` characters for `n > 0` and none for `n <= 0`; every character is one of `0123456789` |
| `Utils.GeneratePinAt` | source_code/accounts/utils.py:8 | the i-th character of the PIN is the digit the i-th draw picked |
| `Utils.GeneratePinDependsOnFirstDraws` | source_code/accounts/utils.py:8 | two draw streams give the same PIN if and only if they agree on the first `n` draws |
| `Utils.GeneratePinReachesEveryDigitString` | source_code/accounts/utils.py:8 | every digit string is a PIN some draws produce, so the construction excludes no PIN |
| `Utils.MaskIban` | source_code/accounts/utils.py:10-13 | empty IBAN gives `""`; otherwise the mask has length `2*min(4,len)+16` (24 once the IBAN has 4 characters), begins with the first `min(4,len)` characters, ends with the last `min(4,len)`, and the fixed mask sits between them |
| `Utils.MaskIbanDeterminedByEnds` | source_code/accounts/utils.py:11-13 | two IBANs have the same mask if and only if both are empty, or both are non-empty and agree on their first four and last four characters: the middle never shows |
| `Secrets.RandomSource.NextPin` | source_code/accounts/utils.py:8 | a `generate_pin` call is `GeneratePin` on the next unused draws; it uses one draw per character and logs the PIN it hands out |
| `Signals.DisclosureContext` | source_code/accounts/signals.py:20-50 | `user_name` is `full_name` when non-empty, otherwise the email; `iban` is the unmasked IBAN; `pin` is the raw PIN; without a card every card field is `None`; with a card brand, last four and expiry come from it; `cvv_real` is set exactly when the card's real CVV is non-empty |
| `Signals.Scrub` | source_code/accounts/signals.py:70-73 | a card that held a real CVV or PAN has both set to `None`; a card that held neither is unchanged; no real secret is left afterwards and no other field changes |
| `Signals.Card.ClearSecrets` | source_code/accounts/signals.py:71-73 | the erasure sets both real fields to `None` |
| `Signals.Card.CreatedTryNotify` | source_code/accounts/signals.py:87-90 | the disclosure runs only for a creating save on an unserved account, with the effects of `TrySendCredentials`; otherwise the account, its cards and the random source are unchanged |
| `Signals.Account.SelectDisclosureCard` | source_code/accounts/signals.py:18 | returns an active card of the account whose issue time is maximal among the active cards, or none exactly when no card is active |
| `Signals.Account.SetNewPin` | source_code/accounts/signals.py:32-34 | a fresh six-digit PIN is drawn and its encoding stored |
| `Signals.Account.EnsurePin` | source_code/accounts/signals.py:80-83 | afterwards a PIN is set; an existing PIN is kept and nothing is drawn; a missing one is replaced by the encoding of a freshly drawn PIN |
| `Signals.Account.TrySendCredentials` | source_code/accounts/signals.py:11-73 | on a served account nothing changes: no PIN write, no email, no draw, no card change. On an unserved account it selects the card by the rule above, draws one fresh six-digit PIN and stores its encoding even if a PIN existed, and appends exactly one email to `[user.email]` with the fixed subject and the disclosure context holding that PIN. It then marks the account served and scrubs the selected card. Other cards keep their secrets |
| `Signals.Account.CreatedSetPinAndNotify` | source_code/accounts/signals.py:76-84 | a non-creating save changes nothing. A creating save leaves a PIN set and the account served. On an unserved account it performs exactly one disclosure, whose PIN is the last one drawn. On a served account it only sets a PIN if none was set |
| `Signals.Account.Replay` | source_code/accounts/signals.py:14-15 | over any sequence of account and card saves: `credentials_sent` never goes from true to false, the outbox only grows and holds at most one email. An unserved account ends with exactly one email once any creating save occurs, and with none if no creating save occurs |

## Left out

- Persistence: `save(update_fields=...)` calls are plain field updates, the card
  query is a loop over a sequence, and `post_save` dispatch is a direct call of
  the handler.
- Card objects stand for database rows. In the code, the card query returns a
  fresh in-memory instance, and only that copy and the row are erased. The
  handler's `instance` and any object the caller holds keep `cvv_real` and
  `pan_real` in memory. A later full `save()` of such a copy would write the
  secrets back. The model has one object per card, so it does not capture these
  stale copies.
- Concurrency: two handlers racing on the same account could both read the flag
  as false. The code has no locking to model, so the race is left out.
- Email transport: `EmailMultiAlternatives` and `send(fail_silently=True)` are
  modelled as one append to the ghost `outbox`. Delivery success cannot be
  observed in the code, so it is not modelled.
- Template rendering (`render_to_string`) and the HTML alternative with its
  `try`/`except`: an email is represented by the context it is rendered from.
  Whether an HTML part is attached is not recorded.
- Rendering is assumed to succeed. In the code the plain-text render
  (source_code/accounts/signals.py:56) is outside the `try`. If it raises, the
  exception leaves `try_send_credentials` after the rotated PIN has been saved
  (lines 31-33 or 36-38). No email is sent and `credentials_sent` stays false, so the next
  creating save rotates the PIN again. That failure path is not modelled.
- The sender address from `settings.DEFAULT_FROM_EMAIL` (with its fallback)
  is a configuration lookup, not part of the modelled email.
- `get_circuit_display`/`hasattr`: the brand is taken as the card's `circuit`
  value. The display label is a framework lookup.
- `secrets.choice` randomness and the hashing inside `set_pin`. The models
  source file that defines `set_pin` is not part of this model. Draws are an
  arbitrary stream, and the encoding is an uninterpreted function with
  non-empty results.
- Signals.Account.SelectDisclosureCard: when several active cards share the
  latest issue time, the contract does not say which one is picked. The
  database's tie order is not visible in the code.
- Signals.Account.TrySendCredentials: the PIN it discloses is described as the
  last PIN the random source issued, with six digits. How that PIN follows from
  the stream of draws is stated once, by `Secrets.RandomSource.NextPin`.
- The card data the code reads (`active`, `issued_at` and the rest) is fixed
  for the lifetime of a card. Card updates other than the erasure are outside
  this code.
