# Messaging app core in Dafny

This project models the rule-bearing core of a Django messaging and booking
app (the `chats` app). It covers three parts:

- **The data layer** (`messaging_app/chats/models.py`). The user manager's
  `create_user` and `create_superuser`, `User.save`, the label
  `Conversation.__str__`, and the constraints and default orderings that the
  `Meta` classes of User, Conversation, Property, Booking, Payment, Review and
  Message declare. It is one in-memory store, the class
  `Persistence.Store`. Every table is kept in its default query order, and
  every insert either keeps the table's constraints or is refused with the
  error the database would raise.
- **`MessageSerializer.validate`** (`messaging_app/chats/serializers.py`). On
  POST, PUT and PATCH the sender must be a participant of the conversation.
  Otherwise the data passes through untouched.
- **`ConversationSerializer.get_last_message`**. For an authenticated
  request it gives the conversation's messages of the last seven days, and
  nothing otherwise.

Units: primary keys (uuid4 in the app) are naturals issued by a counter,
timestamps are integer seconds, dates are integer day numbers, and money is an
integer number of cents. "Now" is a parameter.

Files:

- `results.dfy`: `Option` and `Result`.
- `ordering.dfy`: the default ordering, meaning tables kept sorted by a key,
  and distinct primary keys. Rows whose keys tie are kept in insertion order,
  which is this model's choice (see "## Left out").
- `text.dfy`: `", ".join` and the decimal rendering of a count.
- `models.dfy`: the entities, the constraints, the pure user-creation rules
  and the label.
- `store.dfy`: the store class.
- `serializers.dfy`: the two serializer methods.

The model follows the code where a richer design would differ:

- `validate` never compares `sender_id` with the requesting user. Any sender
  who is a participant passes, whoever makes the request.
- No unread count exists. `unread_count` is declared, but no
  `get_unread_count` method exists.
- `get_last_message` returns every message of a seven-day window, not a single
  latest message. It returns nothing at all for an anonymous request.

The serializer module, as written, would not load:

- It uses `from models import` (serializers.py:3) where a package-relative
  import is meant.
- It passes `Write_only=True` (serializers.py:50), a keyword that no field
  accepts.

The model takes the evident logic of the two methods. `MessageSerializer`'s
field list (serializers.py:29-35) has no `conversation`, and `validate`
receives only declared fields. So `data.get('conversation')` is always `None`,
and every POST, PUT or PATCH fails on `None.participants` with an
`AttributeError`. `Validate` models that branch, and "## Findings" records it
beside the intended participant check.

## Model

| member | source | states |
|---|---|---|
| `Models.SetDefault` | messaging_app/chats/models.py:20-21 | `setdefault` binds the key only when it is unbound; every other key keeps its value |
| `Models.SuperuserFields` | messaging_app/chats/models.py:19-25 | succeeds exactly when each flag is absent or exactly `True`; on success both flags are `True` and every other keyword is unchanged; otherwise it raises the `is_staff` error first, then the `is_superuser` one |
| `Models.NewUser` | messaging_app/chats/models.py:12-14 | the built user has the given email and username equal to that email, whatever `username` the keywords held; the keywords become attributes, role defaults to "guest" and created_at to now |
| `Models.WithDefaultUsername` | messaging_app/chats/models.py:49-51 | an empty username becomes the email; a non-empty one is left unchanged; nothing else changes |
| `Models.LabelShowsFewNames` | messaging_app/chats/models.py:76-80 | the slice `[:3]` keeps every name: with at most three participants the label is "Conversation between " and all names joined by ", ", with no suffix |
| `Models.LabelCountsHiddenNames` | messaging_app/chats/models.py:76-80 | with more than three participants the label shows exactly the first three names (`names[..3]`) and ends " and k more", where k read back from its digits is count − 3 |
| `Models.LabelIgnoresHiddenNames` | messaging_app/chats/models.py:77-79 | names after the third never affect the label; only how many participants there are does |
| `Models.LabelOfFive` | messaging_app/chats/models.py:76-80 | five participants a…e give "Conversation between a, b, c and 2 more" |
| `Models.ConversationsInsert` | messaging_app/chats/models.py:70-83 | a conversation whose participants all exist, added with the next key, keeps the table in `-created_at` order with distinct keys and existing participants |
| `Models.MessagesInsert` | messaging_app/chats/models.py:252-281 | a message with a non-empty body, an existing sender and conversation, added with the next key, keeps the table in `sent_at` order with every constraint |
| `Models.PropertiesInsert` | messaging_app/chats/models.py:93-119 | a property with price ≥ 0 and an existing host keeps the table's constraints and `-created_at` order |
| `Models.BookingsInsert` | messaging_app/chats/models.py:126-165 | a booking with check_out > check_in and existing property and guest keeps the table's constraints and `-created_at` order |
| `Models.PaymentsInsert` | messaging_app/chats/models.py:172-210 | a payment with amount ≥ 0 and existing booking and payer keeps the table's constraints and `-payment_date` order |
| `Models.ReviewsInsert` | messaging_app/chats/models.py:217-245 | a review with 1 ≤ rating ≤ 5 and existing property and author keeps the table's constraints and `-created_at` order |
| `Text.JoinAppend` | messaging_app/chats/models.py:77 | joining one more name appends ", " and that name |
| `Text.JoinLength` | messaging_app/chats/models.py:77 | a joined string is the names' total length plus one separator per gap |
| `Text.ParseNatToString` | messaging_app/chats/models.py:79 | the rendered count reads back as the count |
| `Ordering.InsertByKeySplits` | messaging_app/chats/models.py:267-272 | a new row lands after every row whose ordering key is at most its own and before the first greater one; the old rows keep their order |
| `Ordering.InsertByKeyPermutes` | messaging_app/chats/models.py:267-272 | an insert adds exactly the new row and loses none |
| `Ordering.InsertByKeySorted` | messaging_app/chats/models.py:81-83 | inserting into a table in its default order (e.g. conversations newest first) keeps it in that order |
| `Ordering.InsertByKeyDistinct` | messaging_app/chats/models.py:247-251 | a row with a fresh primary key keeps primary keys distinct |
| `Ordering.InsertByKeyPks` | messaging_app/chats/models.py:247-251 | after an insert, the primary keys present are the old ones plus the new row's |
| `Persistence.Store.FreshId` | messaging_app/chats/models.py:29-33 | each new primary key differs from every key issued before |
| `Persistence.Store.SaveUser` | messaging_app/chats/models.py:49-62 | applies the username default and writes the row; it is refused with `unique_email_constraint`, leaving the table unchanged, exactly when another user has that email; the store invariant (unique emails) is kept |
| `Persistence.Store.CreateUser` | messaging_app/chats/models.py:9-17 | a missing or empty email raises "The Email field must be set" and stores nothing; a keyword naming no User field raises a TypeError and stores nothing; otherwise the stored user has a fresh id and username = email = normalized email, and creation fails only when that email is taken; the id is spent exactly when the instance is built |
| `Persistence.Store.CreateSuperuser` | messaging_app/chats/models.py:19-26 | a flag given as anything but `True` is refused before the email is looked at, and nothing is stored; the remaining errors are those of `create_user` with the defaulted flags; on success the stored user has both flags `True` |
| `Persistence.Store.CreateConversation` | messaging_app/chats/models.py:64-83 | a conversation among existing users is stored with a fresh id; the table stays in `-created_at` order |
| `Persistence.Store.AddMessage` | messaging_app/chats/models.py:246-281 | an empty body is refused with `non_empty_message_body`, and so is an unknown sender or conversation; a refused insert leaves the messages unchanged; a stored message keeps the table in `sent_at` order with no empty body |
| `Persistence.Store.AddProperty` | messaging_app/chats/models.py:87-119 | a negative price_per_night is refused with `price_per_night_non_negative`; stored properties all have price ≥ 0 |
| `Persistence.Store.AddBooking` | messaging_app/chats/models.py:120-165 | check_out ≤ check_in is refused with `check_out_after_check_in`; stored bookings all have check_out > check_in |
| `Persistence.Store.AddPayment` | messaging_app/chats/models.py:166-210 | a negative amount is refused with `payment_amount_non_negative`; stored payments all have amount ≥ 0 |
| `Persistence.Store.AddReview` | messaging_app/chats/models.py:211-245 | a rating outside 1..5 is refused with `rating_between_1_and_5`; stored reviews all have 1 ≤ rating ≤ 5 |
| `Serializers.Validate` | messaging_app/chats/serializers.py:37-44 | the data comes back unchanged exactly when the request is not a write or the sender is a participant; a write by a non-participant raises "Sender must be a participant in the conversation." |
| `Serializers.ValidateIgnoresRequestUser` | messaging_app/chats/serializers.py:37-44 | the outcome is the same whoever makes the request |
| `Serializers.DeclaredFields` | messaging_app/chats/serializers.py:29-35 | the validated data keeps the sender and body but never a conversation, which is not a declared field |
| `Serializers.ValidateAsWrittenRejectsEveryWrite` | messaging_app/chats/serializers.py:39-42 | as written, every POST/PUT/PATCH fails with an AttributeError on `None.participants`, whoever the sender is |
| `Serializers.ValidateChecksParticipant` | messaging_app/chats/serializers.py:40-43 | once the conversation is in the data, a write is accepted exactly when the sender is a participant, and otherwise raises the participant error |
| `Serializers.ValidateSkipsOtherMethods` | messaging_app/chats/serializers.py:38-44 | with no request, or a method other than POST/PUT/PATCH, the data passes without any membership check |
| `Serializers.RecentMessages` | messaging_app/chats/serializers.py:69-70 | every message returned is from the table, belongs to the conversation and lies inside the window; no message is returned more often than the table holds it |
| `Serializers.RecentMessagesComplete` | messaging_app/chats/serializers.py:69-70 | every message of the conversation inside the window is returned |
| `Serializers.RecentMessagesSorted` | messaging_app/chats/serializers.py:69-70 | the result keeps the table's `sent_at` order |
| `Serializers.GetLastMessage` | messaging_app/chats/serializers.py:66-71 | returns something exactly for an authenticated request, and then only the conversation's messages with sent_at ≥ now − 7 days, none more often than the table holds it |
| `Serializers.GetLastMessageComplete` | messaging_app/chats/serializers.py:66-71 | no message of the conversation from the last seven days is missing |
| `Serializers.GetLastMessageSorted` | messaging_app/chats/serializers.py:66-71 | over a table in `sent_at` order, the result is in `sent_at` order |
| `Serializers.GetLastMessageAsWritten` | messaging_app/chats/serializers.py:66-71 | as written, every authenticated request raises `FieldError("get")`, and a missing or anonymous request gets `None` |
| `Serializers.AsWrittenLosesRecentMessage` | messaging_app/chats/serializers.py:69-70 | a message sent a minute ago is returned by the intended query but not by the code as written |

## Left out

- Password hashing (`set_password`) is not modelled. `normalize_email` is a library function, so the store takes it as an opaque function-valued constant.
- `get_full_name` is a framework method. The label takes the participants' full names, in the order the participant query yields them.
- The `__str__` methods of User, Property, Booking, Payment, Review and Message are not modelled. They are plain formatting.
- `UserSerializer` and all field declarations are not modelled. They hold no logic. The missing comma in its field list (`'last_name' 'fullname'`) is not modelled either.
- `unread_count` is declared without a `get_unread_count` method, so it has no behaviour to model.
- Form-level rules such as `blank=False` and the `choices` of role, status and payment method are not enforced by the database. Role, status and payment method are carried as plain values.
- AbstractUser's own fields and its unique username come from the framework, not from this app. Only the email is kept unique.
- Decimal precision (`max_digits`, `decimal_places`) is not modelled. Money is an integer number of cents, and only the sign constraints matter.
- Updates of rows other than users are not modelled, and nor are deletions or cascades. `updated_at` is the insertion time.
- Adding participants to an existing conversation is not modelled. A conversation is created with its whole participant set, and every participant must exist.
- `NewUser`, `CreateUser`: keyword arguments that name a model property rather than a field (such as `pk`) are refused as unknown, while Django accepts them. Many-to-many names (`groups`, `user_permissions`) are refused, as Django refuses them.
- `InsertByKey` and the store's inserts: rows whose ordering keys tie (equal `sent_at`, equal `created_at`) are kept in insertion order. That is this model's choice. `Meta.ordering` leaves the order of ties to the database. Every other ordering property holds whatever order ties take.
- When several constraints fail at once, the check constraint is reported before the missing foreign key, as with the deferred foreign keys Django creates. Other databases may differ.
- `user_id` or `created_at` passed inside `extra_fields` are kept as plain attributes. The user's id is always freshly issued, and its `created_at` is the call's now.
- Concurrency around check-then-insert is not modelled. Nor are `timezone.now` and time zones (now is an integer parameter), or request and authentication mechanics (authentication is a boolean of the request user).
- The serializer module's load-time defects (the import at serializers.py:3 and `Write_only` at serializers.py:50) are recorded in comments only. The model uses the logic they would enable.

## Findings

| source | as written | input that shows it | evidently intended | confidence | as-written member | corrected member |
|---|---|---|---|---|---|---|
| messaging_app/chats/serializers.py:70 | `filter(sent_at__get=...)` names a lookup DateTimeField does not have, so the query raises FieldError | any authenticated request, e.g. a conversation with one message sent a minute ago | `sent_at__gte`: the conversation's messages from the last seven days | high, not executed | `Serializers.GetLastMessageAsWritten` (shown by `Serializers.AsWrittenLosesRecentMessage`) | `Serializers.GetLastMessage` (with `Serializers.GetLastMessageComplete`) |
| messaging_app/chats/serializers.py:40-42 | `conversation` is not a declared field (serializers.py:29-35), so `data.get('conversation')` is `None` and `conversation.participants` raises AttributeError | any POST, PUT or PATCH, even from a participant | the participant check on the message's conversation | high, not executed | `Serializers.ValidateAsWrittenRejectsEveryWrite` (with `Serializers.DeclaredFields`) | `Serializers.Validate` (with `Serializers.ValidateChecksParticipant`) |
