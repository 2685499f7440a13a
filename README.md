# Helpdesk API core (api-mern), modelled in Dafny

This project models the request handlers of a helpdesk REST API written for
Express and Mongoose. The handlers cover:

- registering an account, confirming it with a six-digit code sent by
  e-mail, and logging in with a 30-day session token;
- the `checkAuth` middleware that guards the ticket routes with a bearer token;
- opening, reading, editing and deleting support tickets;
- the support-only transitions: take a ticket, mark it in process with a due
  date, close it.

The model has seven modules:

- `Base`: identifiers (`Types.ObjectId.isValid` is 24 hexadecimal characters
  in either case, and the stored form is lower case), JavaScript truthiness,
  `x || y`, string length in UTF-16 code units, and the Mongoose `trim` and
  `lowercase` setters.
- `TicketModel`, `UserModel`, `TokenModel`: the three schemas. Each gives the
  record, its enumerations, the defaults a new document gets, and what the
  validators demand on `save()`. `TokenModel` also has the confirmation-code
  generator.
- `CheckAuth`: the middleware, as a method with early returns.
- `TicketController`, `UserController`: every state-changing handler appears
  twice.
  - A pure function maps the collections before the request to the reply
    (status and message) and the collections after it. These functions carry
    the contracts: check order, error replies, "nothing else changes".
  - A method of a store class (`TicketStore`, `AccountStore`) follows the
    handler statement by statement. It assigns the document's fields one by
    one, saves it into a `map` field, and is proved to produce exactly what
    the function says.
  - Lemmas relate several handlers, for example: register, confirm, then log
    in; confirmation is single-use; create, assign, start, close.

Some inputs come from outside and are passed in as parameters:

- The database's new identifiers: a fresh, well-formed id is a parameter.
- The value `Math.random()` draws: a `draw < 900000` parameter.
- The current time: a `now` parameter.
- `jwt.verify`: a function from token to the `id` claim, or nothing for a token it rejects.
- `validateEmail`: its file is not part of this model, so it is a function
  field of `UserController.Env`.

bcrypt is the `Digest` datatype: `Hash` makes one, and `Check` is the only
reader. The mail `UserEmail.confirmAccount` would send is returned as a
value.

Some behaviours are modelled exactly as the code is written:

- `closeTicket` requires the `support` permission, like the other
  transitions. Nothing requires a particular prior status.
- `getAllTickets` imposes no order, and the reads populate only `createdBy`.
- No ticket handler sends a notification. These exist only as TODO comments.
- The three support transitions do not test the identifier's shape, so a
  malformed id makes `findById` throw. The reply is 500, not 404.
- `updateTicket` populates `createdBy` and reads `createdBy._id`. When the
  creator's account has been deleted, this throws (500).
- The `trim` setter runs before validation. A text field holding only
  white space is truthy, so it passes the handler's own check. It then fails
  `required` on save (500, nothing stored).
- In `createUser`, the user and its token are saved side by side with
  `Promise.allSettled`. A user the validators reject is therefore not stored,
  while its token is, and the reply is still 202.
- The token schema's `createdAt` default is `Date.now()`, evaluated once when
  the schema is defined. Every token thus carries that one instant, and the
  ten-minute time-to-live counts from it.
  `UserController.ConfirmAfterSchemaWindow` proves the consequence: ten
  minutes after the schema is loaded, no confirmation can succeed.
- `login` checks `isActive` and `isConfirmed` before the password. An
  unconfirmed account is sent a new code whatever password was entered.
- `getUserById` and `getAllUsers` return the stored documents, password
  digest included. The user routes carry no `checkAuth`.
- In `checkAuth`, the final `next()` cannot be reached: every path that
  sets `token` has already returned. The method keeps that statement.

## Model

| member | source | states |
|---|---|---|
| Base.TrimStartSlice | src/models/ticket.model.js:5-19 | the start of `trim` removes only a white-space prefix and stops at the first other character |
| Base.TrimEndSlice | src/models/ticket.model.js:5-19 | the end of `trim` removes only a white-space suffix and stops at the last other character |
| Base.TrimSlice | src/models/ticket.model.js:5-19 | the stored value is trimmed, is a contiguous slice of the input, and only white space is dropped on either side |
| Base.TrimIdempotent | src/models/user.model.js:5-26 | trimming a trimmed value changes nothing, so applying the setter twice is the same as once |
| Base.TrimOfTrimmed | src/models/user.model.js:5-26 | a value without white space at either end is stored unchanged |
| Base.TrimEmptyIffAllSpace | src/models/ticket.model.js:5-19 | what the setter stores is trimmed, and is the empty string exactly when the input was only white space |
| Base.AssignTrimmed | src/controllers/ticket.controller.js:133-135 | `doc.f = v \|\| doc.f` on a trimmed required field: the result is trimmed, is empty exactly when `v` was truthy but white space, and is the old value when `v` is not truthy |
| Base.LowerChar | src/models/user.model.js:18 | lower-casing never yields an upper-case letter and preserves white space |
| Base.ToLower | src/models/user.model.js:18 | `lowercase` keeps the length, maps each character independently, leaves no upper-case letter, and leaves a text without upper-case letters unchanged |
| Base.IdKey | src/controllers/ticket.controller.js:75-81 | `findById` casts a well-formed id to the stored lower-case form, and a stored-form id is its own key |
| Base.StoredIdKey | src/controllers/ticket.controller.js:75-81 | an id in stored form passes `isValid` and is looked up as itself |
| Base.IdKeyIgnoresCase | src/controllers/ticket.controller.js:75-81 | two well-formed ids that differ only in letter case are cast to the same key |
| Base.Utf16Length | src/controllers/user.controller.js:35 | JavaScript's `length` counts a character outside the Basic Multilingual Plane as two code units, so it lies between the number of characters and twice that number |
| Base.Utf16LengthBmp | src/controllers/user.controller.js:35 | a text made only of Basic Multilingual Plane characters has a `length` equal to its number of characters |
| Base.Utf16LengthAstral | src/controllers/user.controller.js:35 | three emoji have `length` 6 |
| Base.NormalizeIdempotent | src/models/user.model.js:15-21 | normalising a stored address again gives the same address |
| Base.NormalizedForm | src/models/user.model.js:15-21 | what the `lowercase`+`trim` setters store is trimmed and has no upper-case letter, and such a value is stored unchanged |
| Base.LowerOfSliceOfLower | src/models/user.model.js:18 | any slice of a lower-cased text is already lower case |
| TicketModel.New | src/models/ticket.model.js:3-46 | a new ticket is `pending`, with no due date and no assignee; its text fields are trimmed, its creator and category are as given; it passes validation exactly when no text field is only white space and the category is not empty |
| UserModel.CheckHash | src/utils/user.util.js:4-12 | `checkPassword` accepts exactly the password the digest was made from |
| UserModel.New | src/models/user.model.js:3-54 | a new user gets the normalised address, the given digest, an empty avatar, permissions `["default"]`, `isActive` true and `isConfirmed` false; it passes validation exactly when name and last name are not only white space and the address does not normalise to empty |
| TokenModel.New | src/models/token.model.js:3-17 | a new token carries the code and the user, and whether it has expired depends only on the schema's load instant, not on when the token was made |
| TokenModel.DecimalString | src/utils/token.util.js:3-4 | `toString()` of a number gives decimal digits with no leading zero |
| TokenModel.ParseDecimalString | src/utils/token.util.js:3-4 | the printed code reads back as the number it was printed from |
| TokenModel.DecimalLength | src/utils/token.util.js:3-4 | a number with k digits prints as exactly k characters |
| TokenModel.GeneratedCode | src/utils/token.util.js:3-4 | `generateToken()` yields six digits without a leading zero, and distinct draws give distinct codes |
| CheckAuth.Split | src/middlewares/checkAuth.middleware.js:12 | `split(" ")` yields at least one field, and no field contains the separator |
| CheckAuth.JoinSplit | src/middlewares/checkAuth.middleware.js:12 | splitting loses nothing: joining the fields back gives the header |
| CheckAuth.SplitWithoutSep | src/middlewares/checkAuth.middleware.js:12 | a text without a space is a single field |
| CheckAuth.SplitAtSep | src/middlewares/checkAuth.middleware.js:12 | the text before the first space is the first field, and the rest is split on its own |
| CheckAuth.SecondField | src/middlewares/checkAuth.middleware.js:12 | `split(" ")[1]` never contains a space |
| CheckAuth.SecondFieldOf | src/middlewares/checkAuth.middleware.js:12 | `"<scheme> <token>"`, with or without further fields, yields exactly `<token>`; a header without a space yields `undefined` |
| CheckAuth.CheckAuth | src/middlewares/checkAuth.middleware.js:4-33 | 401 "Token no válido" exactly when the header is missing, empty or not `Bearer`; 401 "Sin autorizacion" exactly when it is `Bearer` but the token is missing or rejected, or its id claim is malformed; the request proceeds exactly when the header is `Bearer` and its token verifies to a well-formed id, and then with the user of that id in any letter case, without password (or none if deleted); every rejection is 401 |
| TicketController.GetAllTickets | src/controllers/ticket.controller.js:42-69 | a caller without `support` gets exactly the tickets it created, a `support` caller gets every ticket; each carries its populated creator |
| TicketController.GetTicketById | src/controllers/ticket.controller.js:71-100 | 404 "ID no válido" for a malformed id, 404 for an absent ticket, otherwise the ticket with its populated creator, with no ownership check; the id is looked up in its lower-case stored form |
| TicketController.GetTicketByIdIgnoresCase | src/controllers/ticket.controller.js:75-81 | ids that differ only in letter case read the same ticket |
| TicketController.UpperCaseIdFindsTicket | src/controllers/ticket.controller.js:75-81 | the upper-case spelling of a stored id finds that ticket |
| TicketController.NewTicketFor | src/controllers/ticket.controller.js:19-27 | the document built from a body of truthy fields passes validation exactly when no text field is only white space |
| TicketController.Create | src/controllers/ticket.controller.js:6-40 | 400 with the store unchanged unless all four fields are truthy; 202 exactly when they are and none is only white space, adding exactly one ticket; otherwise 500 with the store unchanged; the store stays valid |
| TicketController.CreatedTicket | src/controllers/ticket.controller.js:19-27 | a created ticket has the caller as creator, is `pending`, has no assignee and no due date, holds the trimmed body, and is the only ticket added |
| TicketController.Merge | src/controllers/ticket.controller.js:131-138 | each content field is overwritten only when the supplied value is truthy; status, assignee, due date and creator never change; the result is valid exactly when no supplied field is only white space |
| TicketController.Update | src/controllers/ticket.controller.js:102-151 | 404 for a malformed or absent id; 409 with the store unchanged for anyone but the creator, support included; 200 exactly when the caller owns the ticket, its account exists and no field is blank, and then only that ticket changes, to the merge |
| TicketController.Delete | src/controllers/ticket.controller.js:153-189 | 404 for a malformed or absent id; 409 with the store unchanged for anyone but the creator; 200 exactly when the caller owns it, and then exactly that ticket is removed |
| TicketController.Assign | src/controllers/ticket.controller.js:191-229 | 401 for a caller without `support`, before any lookup; 500 for a malformed id; 404 for an absent ticket; otherwise only `assignedTo` becomes the caller, the status included unchanged |
| TicketController.MarkInProcess | src/controllers/ticket.controller.js:231-270 | the same checks as assign; then, from any status, the status becomes `inProcess` and the due date is whatever the body carried |
| TicketController.Close | src/controllers/ticket.controller.js:272-308 | the same checks as assign; then, from any status, `pending` included, the status becomes `completed` and nothing else changes |
| TicketController.Lifecycle | src/controllers/ticket.controller.js:191-308 | create, assign, start and close all succeed in turn; the ticket stays `pending` when assigned, ends `completed` with the assignee and due date set, and keeps its creator and content |
| TicketController.CreatedTicketVisibility | src/controllers/ticket.controller.js:48-60 | a newly created ticket is listed for its creator and for support users, and for no other caller |
| TicketController.DeletedTicketGone | src/controllers/ticket.controller.js:164-178 | after a successful delete, reading the ticket gives 404 |
| TicketController.MergeIdempotent | src/controllers/ticket.controller.js:131-138 | applying the same update body twice gives the same ticket as once |
| TicketController.UpdateRepeatable | src/controllers/ticket.controller.js:102-151 | repeating a successful update succeeds again and changes nothing |
| TicketController.TicketStore.CreateTicket | src/controllers/ticket.controller.js:6-40 | builds the document, validates and stores it in place, exactly as `Create` says, and keeps the store valid |
| TicketController.TicketStore.UpdateTicket | src/controllers/ticket.controller.js:102-151 | assigns the four fields one by one and saves, exactly as `Update` says |
| TicketController.TicketStore.DeleteTicket | src/controllers/ticket.controller.js:153-189 | removes the document in place, exactly as `Delete` says |
| TicketController.TicketStore.AssignUserSupport | src/controllers/ticket.controller.js:191-229 | sets `assignedTo` in place, exactly as `Assign` says |
| TicketController.TicketStore.TicketInProcess | src/controllers/ticket.controller.js:231-270 | sets `dueDate` then `status` in place, exactly as `MarkInProcess` says |
| TicketController.TicketStore.CloseTicket | src/controllers/ticket.controller.js:272-308 | sets `status` in place, exactly as `Close` says |
| UserController.InsertUserValid | src/models/user.model.js:15-21 | storing a valid user under a fresh id with an address no one else has keeps addresses unique |
| UserController.ReplaceUserValid | src/models/user.model.js:15-21 | replacing a user by a valid one with the same address keeps addresses unique |
| UserController.TokensValid | src/models/token.model.js:12-16 | any token list with the schema's `createdAt` may accompany valid users |
| UserController.ByEmail | src/controllers/user.controller.js:21 | `findOne({ email })` finds the one user whose stored address equals the normalised argument, and nothing when no such user exists |
| UserController.FirstLive | src/controllers/user.controller.js:89 | `Token.findOne({ token })` finds the first token with that code that has not expired, and nothing exactly when there is none |
| UserController.Register | src/controllers/user.controller.js:10-77 | checks in order: missing field 400, address taken 409, bad format 409, password under six UTF-16 code units 409, each with nothing stored and no mail; otherwise 202, one token for the new id appended, the user stored only if valid, and the code mailed to the stored name and address |
| UserController.AstralPasswordAccepted | src/controllers/user.controller.js:35-40 | a password of three emoji, six UTF-16 code units, passes the length check and the account is created |
| UserController.SavedAccountValid | src/controllers/user.controller.js:44-58 | what registration saves keeps addresses unique and token instants uniform |
| UserController.RegisteredAccount | src/controllers/user.controller.js:42-58 | after 202, exactly one token is added, for the new id, with a six-digit code; the user is stored exactly when its names are not only white space; a stored user holds the digest of the password, the normalised address, is active, unconfirmed, with permissions `["default"]`; other users are untouched |
| UserController.ReRegisterConflicts | src/controllers/user.controller.js:21-27 | registering again with the same address, in any letter case or padding, is 409 "El usuario ya existe" and changes nothing |
| UserController.Confirm | src/controllers/user.controller.js:79-113 | 409 for an empty code, 409 when no live token has it; 500 with nothing changed when its user is gone; otherwise 200, exactly that user becomes confirmed and exactly that token is removed |
| UserController.CountLiveRemove | src/controllers/user.controller.js:89-102 | removing a live token with the code lowers the count of such tokens by one |
| UserController.CountLiveZero | src/controllers/user.controller.js:89-95 | no live token with the code exactly when the lookup finds nothing |
| UserController.CountLiveLater | src/models/token.model.js:12-16 | the number of live tokens with a code never grows as time passes |
| UserController.ConfirmConsumesToken | src/controllers/user.controller.js:98-102 | a successful confirmation consumes one live token with the code |
| UserController.ConfirmSingleUse | src/controllers/user.controller.js:79-113 | when one live token carries the code, a second confirmation with it, now or later, is 409 and changes nothing |
| UserController.ConfirmAfterSchemaWindow | src/models/token.model.js:12-16 | from ten minutes after the schema was loaded, every confirmation is 409 "Token no válido", whatever the code |
| UserController.Authenticate | src/controllers/user.controller.js:115-193 | checks in order: missing field 409, unknown address 404, inactive 401, unconfirmed 401 with one new token for that user mailed, wrong password 401; a session exactly on 200, for the account's id, issued now and expiring in 30 days, with the user without password; users never change |
| UserController.RegisterConfirmLogin | src/controllers/user.controller.js:10-193 | register, confirm with the mailed code within the token window, then log in with the same address and password: each succeeds and the session is for the new account |
| UserController.LoginBeforeConfirm | src/controllers/user.controller.js:141-161 | logging in to a just-registered account is 401 with no session, and one new code for it is saved |
| UserController.DeletedAccountCannotLogin | src/controllers/user.controller.js:126-132 | after an account is deleted, logging in with its address is 404 |
| UserController.FirstLiveAppend | src/controllers/user.controller.js:89 | a live token appended behind tokens that hold no live match for its code is the one found |
| UserController.GetUserById | src/controllers/user.controller.js:213-238 | 404 for a malformed id, 404 for an absent user, otherwise the stored user, password digest included; the id is looked up in its lower-case stored form |
| UserController.GetUserByIdIgnoresCase | src/controllers/user.controller.js:217-223 | ids that differ only in letter case read the same user |
| UserController.Rename | src/controllers/user.controller.js:258-261 | name and last name are overwritten, trimmed, only when the supplied value is truthy; address, password, avatar, permissions and flags never change; valid exactly when no supplied name is only white space |
| UserController.UpdateAccount | src/controllers/user.controller.js:240-278 | 404 for a malformed or absent id; 500 with nothing changed when a supplied name is only white space; otherwise 200 and only that user changes, as `Rename` says; tokens never change |
| UserController.DeleteAccount | src/controllers/user.controller.js:280-309 | 404 for a malformed or absent id; otherwise 200 and exactly that user is removed; tokens never change |
| UserController.AccountStore.CreateUser | src/controllers/user.controller.js:10-77 | runs the checks, builds the user and token, and saves both in place, exactly as `Register` says |
| UserController.AccountStore.ConfirmAccount | src/controllers/user.controller.js:79-113 | sets `isConfirmed` and deletes the token in place, exactly as `Confirm` says |
| UserController.AccountStore.Login | src/controllers/user.controller.js:115-193 | runs the checks and may save a token in place, exactly as `Authenticate` says |
| UserController.AccountStore.UpdateUser | src/controllers/user.controller.js:240-278 | assigns name and last name one by one and saves, exactly as `UpdateAccount` says |
| UserController.AccountStore.DeleteUser | src/controllers/user.controller.js:280-309 | removes the user in place, exactly as `DeleteAccount` says |

## Left out

- E-mail delivery, HTML templates and SMTP: `UserEmail.confirmAccount` is returned as a `Mail` value, and no ticket handler sends mail.
- HTTP framing: the JSON `response` field and the ticket or user bodies of success replies are not modelled; only the status and message are.
- `getMe` and `getAllUsers` are modelled as plain reads (`GetMe`, `GetAllUsers`) without contracts. They return the attached caller and every stored user unchanged.
- `createdAt`/`updatedAt` timestamps and `__v` are not modelled. The populate projection keeps only the fields the model has.
- JavaScript's `trim` also removes non-ASCII white space, and `toLowerCase` also folds non-ASCII letters. The model treats the ASCII characters only.
- bcrypt's salt is not modelled: `Hash` is deterministic, and only `Check` reads a digest.
- JWT encoding, signature and expiry checking are not modelled: they sit inside the `verify` oracle. A verified token without an `id` claim (which makes `findById(undefined)` return null) is not modelled.
- `Types.ObjectId.isValid` also accepts 12-character strings. The model accepts only 24 hexadecimal characters.
- UserModel.CheckHash: bcrypt compares only the first 72 bytes of a password, so two passwords that share those bytes both match one digest. The model's digest is injective, so the half "only that password matches" is stronger than bcrypt's.
- TokenModel.Expired: MongoDB's TTL monitor removes expired documents in a sweep that runs about once a minute. The model treats a token as gone at the instant it expires, and so does `UserController.ConfirmAfterSchemaWindow`.
- Request bodies whose fields are not strings (numbers, objects), and `dueDate` values that fail to cast to a date, are not modelled.
- Database failures, concurrent requests, and the race between the duplicate-address check and the unique index are not modelled.
- A rejected `user.save()` inside `Promise.allSettled` during confirmation is not modelled. The stored user was valid, so the save succeeds in the model.
- A null `req.user` reaching a ticket handler (a deleted account with a valid token) would throw. The ticket functions take a caller profile, so this is not modelled.
- Routing and route wiring are not modelled: which routes carry `checkAuth`, and the `countTickets` route that has no handler.
- Avatar upload, database connection, CORS and server start-up are outside the core.
