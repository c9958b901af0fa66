# Contact card editor: a Dafny model

The system is a client-side contact card editor built from two pages. They share one record,
kept under the browser's local-storage key `"contactInfo"`:

- The edit form (`src/app/form/page.tsx`) keeps an eight-field draft. The draft starts empty. On
  mount it is replaced by the stored record. It is edited one field at a time. Submit writes it
  over the stored entry.
- The display page (`src/app/page.tsx`) reads the stored record on mount. It turns the record into
  a vCard 3.0 text for a QR code. It shows six `label: value` detail lines, the QR image or its
  placeholder, and a footer built from the title and the full name.

The model has six modules:

- `ContactRecord` (`contact.dfy`) holds the record. Each field is `Option<string>`, with `None`
  for a property missing from the parsed object. It also holds the single-field update used by
  the form and JavaScript's `v || fallback` for strings.
- `Browser` (`browser.dfy`) holds the storage slot as a `LocalStorage` class with one
  `Option<StoredValue>` field. It holds the truthiness test and parse that both mount handlers
  perform, and the routes.
- `VCard` (`vcard.dfy`) holds `generateVCard` and a model of `split("\n")` / `join("\n")`.
  The card's line structure is proved over these.
- `HomePage` (`home_page.dfy`) holds the display page: the footer rule, the detail lines, the QR
  area, and the component state as a class with its mount effect and QR callback.
- `FormPage` (`form_page.dfy`) holds the form component as a class with `Mount`, `HandleChange`,
  `HandleSubmit` and `Cancel`.
- `Session` (`session.dfy`) holds the two pages working on one store.

The serialiser is modelled as the code writes it, not as RFC 2426 would have it:

- No `;`, `,` or `\` in a value is escaped, although section 4 of RFC 2426 requires it.
- The whole full name goes into the family-name component of `N`, where section 3.1.2 of
  RFC 2426 expects a structured name.
- Lines are separated by a bare newline, not CRLF.

Neither page catches the exception `JSON.parse` raises (src/app/form/page.tsx:34,
src/app/page.tsx:41). Both mount handlers therefore end in `Threw` / `MountThrew` for unparseable
stored text, with no state changed.

## Model

| member | source | states |
|---|---|---|
| `ContactRecord.Contact.With` | src/app/form/page.tsx:39-42 | after an edit of field `f` to `v`, field `f` holds `v` and every other field is unchanged |
| `ContactRecord.WithIdempotent` | src/app/form/page.tsx:41 | applying the same edit twice equals applying it once |
| `ContactRecord.WithCommutes` | src/app/form/page.tsx:41 | edits of two different fields give the same draft in either order |
| `ContactRecord.EmptyDraft` | src/app/form/page.tsx:19-28 | the initial draft has all eight fields present and equal to the empty string |
| `ContactRecord.OrElse` | src/app/page.tsx:88-90 | `v \|\| fallback`: a non-empty value is kept; an absent or empty one yields the fallback |
| `ContactRecord.Text` | src/app/page.tsx:29-33 | `v \|\| ""`: a present value is returned as is, an absent one becomes the empty string |
| `Browser.Truthy` | src/app/form/page.tsx:33 | `if (storedData)`: an unset key and "" are falsy; any stored record or other text is truthy |
| `Browser.Stringify` | src/app/form/page.tsx:47 | `JSON.stringify` of a record is never the empty string and always parses back |
| `Browser.ReadSlot` | src/app/form/page.tsx:32-34 | no data exactly when the key is unset or holds ""; a record exactly when it holds serialised JSON (and that record); a parse failure exactly when it holds unparseable text |
| `Browser.StringifyThenRead` | src/app/form/page.tsx:32-47 | reading back what submit wrote yields the written record |
| `Browser.LocalStorage.SetItem` | src/app/form/page.tsx:47 | the entry is overwritten with the new value, whatever it held |
| `VCard.VCardEnvelope` | src/app/page.tsx:26-35 | `generateVCard` (`VCard.VCard`) always starts with `BEGIN:VCARD`, newline, `VERSION:3.0`, newline, and always ends with a newline and `END:VCARD`; its full text is stated by `VCard.VCardIsJoinedLines` and `VCard.VCardLines` |
| `VCard.VCardFraming` | src/app/page.tsx:27-34 | for every record the card's first line is `BEGIN:VCARD`, its second `VERSION:3.0`, its last `END:VCARD`, and it has at least eight lines |
| `VCard.VCardLines` | src/app/page.tsx:27-34 | when no serialised value holds a newline, the card splits into exactly BEGIN, VERSION, `N:`+name+`;;;`, `FN:`+name, `TEL:`+mobile, `EMAIL:`+email, `URL:https://linkedin.com/in/`+username, END |
| `VCard.VCardIsJoinedLines` | src/app/page.tsx:27-34 | the card text is those eight lines joined by newlines |
| `VCard.VCardLineCount` | src/app/page.tsx:27-34 | the card has 8 lines plus one per newline inside a value, with the name counted twice |
| `VCard.VCardHasEightLinesIff` | src/app/page.tsx:27-34 | the card has exactly eight lines if and only if none of name, mobile, email and username holds a newline |
| `VCard.VCardIgnoresDisplayOnlyFields` | src/app/page.tsx:26-35 | two records that differ only in any of title, facebook, instagram and x have the same card |
| `VCard.VCardAbsentIsEmpty` | src/app/page.tsx:29-33 | an absent field and an empty one give the same card, so no line is ever dropped |
| `VCard.VCardOfEmptyRecord` | src/app/page.tsx:29-33 | with every serialised value empty the card is `BEGIN:VCARD`, `VERSION:3.0`, `N:;;;`, `FN:`, `TEL:`, `EMAIL:`, `URL:https://linkedin.com/in/`, `END:VCARD` |
| `VCard.VCardSample` | src/app/page.tsx:27-34 | the card of a sample record (Atom Byte, +263771234567, a@b.com, limsync), line by line |
| `VCard.JoinLines` | src/app/page.tsx:27-34 | a law of the model of `split("\n")` / `join("\n")` through which the card lemmas read this newline-separated template, not of the template itself: splitting any text on newlines and joining the pieces again gives the text back |
| `VCard.LinesOfJoin` | src/app/page.tsx:27-34 | a law of the same `split` / `join` model, not of the template itself: joining newline-free lines and splitting again gives the lines back |
| `HomePage.FooterLabel` | src/app/page.tsx:116-122 | the footer is never empty; with both set it is title, one space, full name; with one set it is that one; with neither it is "Press Edit Button" |
| `HomePage.Lookup` | src/app/page.tsx:89 | `contactData?.[key]`: undefined when no record is loaded, otherwise the record's field `key` |
| `HomePage.Shown` | src/app/page.tsx:88-90 | a detail shows the record's non-empty value, and shows the placeholder when there is no record or the value is absent or empty |
| `HomePage.DetailLines` | src/app/page.tsx:77-92 | there is one detail line per entry of the field table |
| `HomePage.DetailLinesShape` | src/app/page.tsx:59-66 | the six lines are Tel, Email, LinkedIn, Facebook, Instagram and X, in that order, each `label: ` followed by the value or the field's placeholder |
| `HomePage.DetailLinesWithoutData` | src/app/page.tsx:88-90 | with no record loaded every line is `label: placeholder` |
| `HomePage.DetailLinesAbsentIsEmpty` | src/app/page.tsx:88-90 | an absent field and an empty one give the same detail lines |
| `HomePage.DetailLinesIgnoreNames` | src/app/page.tsx:59-66 | title and full name never affect the detail lines |
| `HomePage.QrArea` | src/app/page.tsx:108-112 | the placeholder is shown exactly when no data URL has arrived, otherwise the image of that URL |
| `HomePage.EmptyPageShowsPlaceholders` | src/app/page.tsx:108-122 | the initial state shows "Press Edit Button", the QR placeholder and every detail placeholder |
| `HomePage.Page.constructor` | src/app/page.tsx:19-22 | the page starts with no record, empty title, full name and QR URL |
| `HomePage.Page.Mount` | src/app/page.tsx:38-46 | nothing stored leaves the state unchanged; a stored record is kept, its title and full name go to the footer state, and the QR encoder is asked for its vCard; unparseable text throws with nothing changed |
| `HomePage.Page.OnQrEncoded` | src/app/page.tsx:48-54 | on an encoder error the QR URL is unchanged; otherwise it becomes the returned URL; nothing else changes |
| `HomePage.Page.Edit` | src/app/page.tsx:99 | the Edit button navigates to the form |
| `FormPage.Form.constructor` | src/app/form/page.tsx:19-28 | the form starts from the all-empty draft |
| `FormPage.Form.Mount` | src/app/form/page.tsx:31-36 | with the key unset or "" the draft is unchanged; with a stored record the draft becomes it; unparseable text throws with the draft unchanged; storage is never written |
| `FormPage.Form.HandleChange` | src/app/form/page.tsx:39-42 | the named field takes the new value, every other field and the store are unchanged |
| `FormPage.Form.HandleSubmit` | src/app/form/page.tsx:45-49 | the store holds exactly the serialised draft, overwriting what it held; reading it back yields the draft; the draft is unchanged; the next route is home |
| `FormPage.Form.Cancel` | src/app/form/page.tsx:119-121 | store and draft unchanged, next route is home |
| `FormPage.SubmitThenReopen` | src/app/form/page.tsx:31-49 | submitting and then mounting a fresh form on the same store gives back the submitted draft |
| `Session.SubmitThenShow` | src/app/page.tsx:38-45 | after a submit the display page asks for the QR code of the submitted draft's vCard and shows that draft's title and full name in the footer |
| `Session.ShowWithoutData` | src/app/page.tsx:38-40 | a display page opened on a never-written store shows no record, "Press Edit Button" and the QR placeholder |

## Left out

- QR encoding (`QRCode.toDataURL`, src/app/page.tsx:48-54) is a foreign, asynchronous library
  call. `Page.Mount` returns the text it hands to the encoder. `Page.OnQrEncoded` takes the
  callback's outcome as parameters.
- JSON text is abstract. Serialising a record and parsing it back is the identity. A stored
  value is either "", the JSON of a flat string record, or text that does not parse. These are
  not modelled: valid JSON that is not an object (such as `null` or a number), non-string
  property values, and extra properties.
- `console.error` on an encoder failure is I/O and is left out. The model keeps only "nothing
  changes".
- React scheduling is left out. The model does not capture that `useEffect` runs after the
  first render, that state updates are batched, or that a late callback may arrive after
  unmount. Each handler is one atomic method.
- Navigation (`router.push`) is modelled only as the returned `Route`. Mounting a page is a
  separate call.
- JSX markup, CSS classes and the form inputs' rendering (`value={formData[name]}`) are
  presentation and are left out.
- Only the `"contactInfo"` entry of local storage is modelled. No other key is read or written.
- next.config.ts is build configuration only and is not part of this model.
- `HomePage.DetailLines`: its own contract states only the number of lines. The content of each
  line is stated by `HomePage.DetailLinesShape` and `HomePage.DetailLinesWithoutData`.
