/**
 * The entities of the messaging and booking app, the constraints their tables
 * declare, the pure rules of user creation and the conversation label.
 * Primary keys (uuid4 in the app) are naturals, timestamps are integer
 * seconds, dates are integer day numbers and money is an integer count of
 * cents: only the signs and comparisons the constraints state matter.
 */
module Models {
  import opened Results
  import opened Ordering
  import Text

  /** A keyword-argument value as Python sees it; `Bool(true)` is the `True` singleton. */
  datatype Value = Bool(b: bool) | Int(i: int) | Str(s: string) | Null

  /** A `**extra_fields` dictionary. */
  type Fields = map<string, Value>

  /** An account. `attrs` holds the attributes set from keyword arguments (names, flags, role, ...). */
  datatype User = User(userId: nat, email: string, username: string, createdAt: int, attrs: Fields)

  /** A thread; `participants` is the many-to-many membership. */
  datatype Conversation = Conversation(conversationId: nat, participants: set<nat>, createdAt: int)

  datatype Property = Property(
    propertyId: nat, hostId: nat, title: string, description: Option<string>,
    location: string, pricePerNight: int, createdAt: int, updatedAt: int)

  datatype Booking = Booking(
    bookingId: nat, propertyId: nat, userId: nat, checkIn: int, checkOut: int,
    totalPrice: int, createdAt: int, status: string)

  datatype Payment = Payment(
    paymentId: nat, bookingId: nat, userId: nat, amount: int, paymentDate: int, paymentMethod: string)

  datatype Review = Review(
    reviewId: nat, propertyId: nat, userId: nat, rating: int, comment: Option<string>, createdAt: int)

  datatype Message = Message(
    messageId: nat, senderId: nat, conversationId: nat, messageBody: string, sentAt: int)

  /** The exceptions the model layer raises. */
  datatype Error =
    | ValueError(message: string)        // raised by the user manager
    | IntegrityError(constraint: string) // a unique or check constraint of a table
    | ForeignKeyViolation(field: string) // a reference to a row that does not exist
    | TypeError(message: string)         // a keyword argument the model does not accept

  const EmailRequiredMessage := "The Email field must be set"
  const UnexpectedKeywordMessage := "User() got unexpected keyword arguments"
  const StaffRequiredMessage := "Superuser must have is_staff=True."
  const SuperuserRequiredMessage := "Superuser must have is_superuser=True."

  const UniqueEmailConstraint := "unique_email_constraint"
  const PriceConstraint := "price_per_night_non_negative"
  const StayConstraint := "check_out_after_check_in"
  const AmountConstraint := "payment_amount_non_negative"
  const RatingConstraint := "rating_between_1_and_5"
  const BodyConstraint := "non_empty_message_body"

  const DefaultRole := "guest"

  // ---------------------------------------------------------------------------
  // User creation (CustomUserManager and User.save)

  /** `if not email`: the email is absent or empty. */
  predicate EmailMissing(email: Option<string>)
  {
    email.None? || email.value == ""
  }

  /** Python refuses `email` and `password` inside `**extra_fields`: they are named parameters. */
  predicate KeywordsOk(extra: Fields)
  {
    "email" !in extra && "password" !in extra
  }

  /**
   * The fields a `User` instance accepts as keyword arguments: the concrete
   * fields of AbstractUser and those the app adds (models.py:29-45).
   */
  const UserFieldNames: set<string> := {
    "password", "last_login", "is_superuser", "username", "first_name", "last_name",
    "email", "is_staff", "is_active", "date_joined",
    "user_id", "phone_number", "role", "created_at"
  }

  /** `self.model(**extra_fields)` accepts every keyword: each names a field of User. */
  predicate KnownFields(extra: Fields)
  {
    forall k :: k in extra ==> k in UserFieldNames
  }

  /** `d.setdefault(k, v)`: `d` with `k` bound to `v` unless `k` is already bound. */
  function SetDefault(d: Fields, k: string, v: Value): (r: Fields)
    ensures k in r && (k in d ==> r[k] == d[k]) && (k !in d ==> r[k] == v)
    ensures r.Keys == d.Keys + {k}
    ensures forall j :: j in d && j != k ==> r[j] == d[j]
  {
    if k in d then d else d[k := v]
  }

  /** `d.get(k) is True`. */
  predicate IsTrue(d: Fields, k: string)
  {
    k in d && d[k] == Bool(true)
  }

  /**
   * The keyword arguments `create_superuser` hands on to `create_user`: both
   * flags defaulted to `True`, then each required to be exactly `True`
   * (`is_staff` checked first).
   */
  function SuperuserFields(extra: Fields): (r: Result<Fields, Error>)
    ensures r.Ok? <==> ("is_staff" !in extra || extra["is_staff"] == Bool(true))
                       && ("is_superuser" !in extra || extra["is_superuser"] == Bool(true))
    ensures r.Ok? ==> IsTrue(r.value, "is_staff") && IsTrue(r.value, "is_superuser")
    ensures r.Ok? ==> r.value.Keys == extra.Keys + {"is_staff", "is_superuser"}
                      && forall k :: k in extra ==> r.value[k] == extra[k]
    ensures r.Err? ==> r.error == if IsTrue(SetDefault(extra, "is_staff", Bool(true)), "is_staff")
                                  then ValueError(SuperuserRequiredMessage)
                                  else ValueError(StaffRequiredMessage)
  {
    var fields := SetDefault(SetDefault(extra, "is_staff", Bool(true)), "is_superuser", Bool(true));
    if !IsTrue(fields, "is_staff") then Err(ValueError(StaffRequiredMessage))
    else if !IsTrue(fields, "is_superuser") then Err(ValueError(SuperuserRequiredMessage))
    else Ok(fields)
  }

  /**
   * `self.model(email=email, **extra_fields)` followed by `user.username = email`:
   * the keyword arguments become attributes (role defaulting to "guest"), the
   * username is the email whatever `extra` said, and `now` stands for
   * `timezone.now` as the default of `created_at`.
   */
  function NewUser(id: nat, email: string, extra: Fields, now: int): (u: User)
    ensures u.userId == id && u.email == email && u.username == email && u.createdAt == now
    ensures "username" !in u.attrs
    ensures forall k :: k in extra && k != "username" ==> k in u.attrs && u.attrs[k] == extra[k]
    ensures u.attrs.Keys == extra.Keys - {"username"} + {"role"}
    ensures "role" !in extra ==> u.attrs["role"] == Str(DefaultRole)
  {
    User(id, email, email, now, SetDefault(extra - {"username"}, "role", Str(DefaultRole)))
  }

  /** What `User.save` does before writing: an empty username becomes the email. */
  function WithDefaultUsername(u: User): (r: User)
    ensures u.username != "" ==> r == u
    ensures u.username == "" ==> r.username == u.email
    ensures r == u.(username := r.username)
  {
    if u.username == "" then u.(username := u.email) else u
  }

  // ---------------------------------------------------------------------------
  // Table constraints (each model's Meta)

  /** unique_email_constraint: no two stored users share an email. */
  predicate UniqueEmails(users: map<nat, User>)
  {
    forall a, b :: a in users && b in users && users[a].email == users[b].email ==> a == b
  }

  /** Some user other than `self` already has `email`. */
  predicate EmailInUse(users: map<nat, User>, email: string, self: nat)
  {
    exists id :: id in users && id != self && users[id].email == email
  }

  predicate PriceOk(p: Property) { p.pricePerNight >= 0 }
  predicate StayOk(b: Booking) { b.checkOut > b.checkIn }
  predicate AmountOk(p: Payment) { p.amount >= 0 }
  predicate RatingOk(r: Review) { 1 <= r.rating <= 5 }
  predicate BodyOk(m: Message) { m.messageBody != "" }

  // Meta.ordering of each table, as a key that never decreases along it.
  function ConversationOrder(c: Conversation): int { -c.createdAt }  // ['-created_at']
  function PropertyOrder(p: Property): int { -p.createdAt }          // ['-created_at']
  function BookingOrder(b: Booking): int { -b.createdAt }            // ['-created_at']
  function PaymentOrder(p: Payment): int { -p.paymentDate }          // ['-payment_date']
  function ReviewOrder(r: Review): int { -r.createdAt }              // ['-created_at']
  function MessageOrder(m: Message): int { m.sentAt }                // ['sent_at']

  // Primary keys.
  function ConversationPk(c: Conversation): nat { c.conversationId }
  function PropertyPk(p: Property): nat { p.propertyId }
  function BookingPk(b: Booking): nat { b.bookingId }
  function PaymentPk(p: Payment): nat { p.paymentId }
  function ReviewPk(r: Review): nat { r.reviewId }
  function MessagePk(m: Message): nat { m.messageId }

  /** The user table: keyed by id, ids issued below `bound`, emails unique. */
  predicate UsersOk(users: map<nat, User>, bound: nat)
  {
    && (forall id :: id in users ==> users[id].userId == id && id < bound)
    && UniqueEmails(users)
  }

  predicate ConversationsOk(cs: seq<Conversation>, userIds: set<nat>, bound: nat)
  {
    && SortedByKey(cs, ConversationOrder)
    && DistinctBy(cs, ConversationPk)
    && forall c :: c in cs ==> c.conversationId < bound && c.participants <= userIds
  }

  predicate PropertiesOk(ps: seq<Property>, userIds: set<nat>, bound: nat)
  {
    && SortedByKey(ps, PropertyOrder)
    && DistinctBy(ps, PropertyPk)
    && forall p :: p in ps ==> p.propertyId < bound && p.hostId in userIds && PriceOk(p)
  }

  predicate BookingsOk(bs: seq<Booking>, propertyIds: set<nat>, userIds: set<nat>, bound: nat)
  {
    && SortedByKey(bs, BookingOrder)
    && DistinctBy(bs, BookingPk)
    && forall b :: b in bs ==> b.bookingId < bound && b.propertyId in propertyIds && b.userId in userIds && StayOk(b)
  }

  predicate PaymentsOk(ps: seq<Payment>, bookingIds: set<nat>, userIds: set<nat>, bound: nat)
  {
    && SortedByKey(ps, PaymentOrder)
    && DistinctBy(ps, PaymentPk)
    && forall p :: p in ps ==> p.paymentId < bound && p.bookingId in bookingIds && p.userId in userIds && AmountOk(p)
  }

  predicate ReviewsOk(rs: seq<Review>, propertyIds: set<nat>, userIds: set<nat>, bound: nat)
  {
    && SortedByKey(rs, ReviewOrder)
    && DistinctBy(rs, ReviewPk)
    && forall r :: r in rs ==> r.reviewId < bound && r.propertyId in propertyIds && r.userId in userIds && RatingOk(r)
  }

  predicate MessagesOk(ms: seq<Message>, userIds: set<nat>, conversationIds: set<nat>, bound: nat)
  {
    && SortedByKey(ms, MessageOrder)
    && DistinctBy(ms, MessagePk)
    && forall m :: m in ms ==> m.messageId < bound && m.senderId in userIds && m.conversationId in conversationIds && BodyOk(m)
  }

  // Each table keeps its constraints when a row that meets them, with the next
  // primary key, is added in its default order.

  lemma ConversationsInsert(cs: seq<Conversation>, c: Conversation, userIds: set<nat>)
    requires ConversationsOk(cs, userIds, c.conversationId) && c.participants <= userIds
    ensures ConversationsOk(InsertByKey(cs, c, ConversationOrder), userIds, c.conversationId + 1)
    ensures Pks(InsertByKey(cs, c, ConversationOrder), ConversationPk) == Pks(cs, ConversationPk) + {c.conversationId}
  {
    InsertByKeySorted(cs, c, ConversationOrder);
    InsertByKeyDistinct(cs, c, ConversationOrder, ConversationPk);
    InsertByKeyPks(cs, c, ConversationOrder, ConversationPk);
    InsertByKeyPermutes(cs, c, ConversationOrder);
  }

  lemma MessagesInsert(ms: seq<Message>, m: Message, userIds: set<nat>, conversationIds: set<nat>)
    requires MessagesOk(ms, userIds, conversationIds, m.messageId)
    requires m.senderId in userIds && m.conversationId in conversationIds && BodyOk(m)
    ensures MessagesOk(InsertByKey(ms, m, MessageOrder), userIds, conversationIds, m.messageId + 1)
  {
    InsertByKeySorted(ms, m, MessageOrder);
    InsertByKeyDistinct(ms, m, MessageOrder, MessagePk);
    InsertByKeyPermutes(ms, m, MessageOrder);
  }

  lemma PropertiesInsert(ps: seq<Property>, p: Property, userIds: set<nat>)
    requires PropertiesOk(ps, userIds, p.propertyId) && p.hostId in userIds && PriceOk(p)
    ensures PropertiesOk(InsertByKey(ps, p, PropertyOrder), userIds, p.propertyId + 1)
    ensures Pks(InsertByKey(ps, p, PropertyOrder), PropertyPk) == Pks(ps, PropertyPk) + {p.propertyId}
  {
    InsertByKeySorted(ps, p, PropertyOrder);
    InsertByKeyDistinct(ps, p, PropertyOrder, PropertyPk);
    InsertByKeyPks(ps, p, PropertyOrder, PropertyPk);
    InsertByKeyPermutes(ps, p, PropertyOrder);
  }

  lemma BookingsInsert(bs: seq<Booking>, b: Booking, propertyIds: set<nat>, userIds: set<nat>)
    requires BookingsOk(bs, propertyIds, userIds, b.bookingId)
    requires b.propertyId in propertyIds && b.userId in userIds && StayOk(b)
    ensures BookingsOk(InsertByKey(bs, b, BookingOrder), propertyIds, userIds, b.bookingId + 1)
    ensures Pks(InsertByKey(bs, b, BookingOrder), BookingPk) == Pks(bs, BookingPk) + {b.bookingId}
  {
    InsertByKeySorted(bs, b, BookingOrder);
    InsertByKeyDistinct(bs, b, BookingOrder, BookingPk);
    InsertByKeyPks(bs, b, BookingOrder, BookingPk);
    InsertByKeyPermutes(bs, b, BookingOrder);
  }

  lemma PaymentsInsert(ps: seq<Payment>, p: Payment, bookingIds: set<nat>, userIds: set<nat>)
    requires PaymentsOk(ps, bookingIds, userIds, p.paymentId)
    requires p.bookingId in bookingIds && p.userId in userIds && AmountOk(p)
    ensures PaymentsOk(InsertByKey(ps, p, PaymentOrder), bookingIds, userIds, p.paymentId + 1)
  {
    InsertByKeySorted(ps, p, PaymentOrder);
    InsertByKeyDistinct(ps, p, PaymentOrder, PaymentPk);
    InsertByKeyPermutes(ps, p, PaymentOrder);
  }

  lemma ReviewsInsert(rs: seq<Review>, r: Review, propertyIds: set<nat>, userIds: set<nat>)
    requires ReviewsOk(rs, propertyIds, userIds, r.reviewId)
    requires r.propertyId in propertyIds && r.userId in userIds && RatingOk(r)
    ensures ReviewsOk(InsertByKey(rs, r, ReviewOrder), propertyIds, userIds, r.reviewId + 1)
  {
    InsertByKeySorted(rs, r, ReviewOrder);
    InsertByKeyDistinct(rs, r, ReviewOrder, ReviewPk);
    InsertByKeyPermutes(rs, r, ReviewOrder);
  }

  // ---------------------------------------------------------------------------
  // Conversation.__str__

  const LabelPrefix := "Conversation between "
  const ShownParticipants := 3

  /** The names the label shows: the first three, or all when there are fewer. */
  function ShownNames(names: seq<string>): (shown: seq<string>)
    ensures |shown| == if |names| < ShownParticipants then |names| else ShownParticipants
    ensures shown == names[..|shown|]
  {
    names[..if |names| < ShownParticipants then |names| else ShownParticipants]
  }

  /** " and k more". */
  function MoreSuffix(k: nat): string
  {
    " and " + Text.NatToString(k) + " more"
  }

  /**
   * The label of a conversation whose participants' full names, in the order
   * the participant query yields them, are `names`: the first three joined by
   * ", ", then " and k more" when k further participants are not shown.
   */
  function ConversationLabel(names: seq<string>): string
  {
    var shown := Text.Join(ShownNames(names), ", ");
    if |names| > ShownParticipants
    then LabelPrefix + shown + MoreSuffix(|names| - ShownParticipants)
    else LabelPrefix + shown
  }

  /** Up to three participants, every name is shown and nothing follows them. */
  lemma LabelShowsFewNames(names: seq<string>)
    requires |names| <= ShownParticipants
    ensures ConversationLabel(names) == LabelPrefix + Text.Join(names, ", ")
  {
    assert ShownNames(names) == names;
  }

  /**
   * Beyond three participants the label shows the first three and ends with
   * " and k more", where k, read back from its digits, is the number not shown.
   */
  lemma LabelCountsHiddenNames(names: seq<string>)
    requires |names| > ShownParticipants
    ensures ConversationLabel(names) == LabelPrefix + Text.Join(names[..3], ", ") + MoreSuffix(|names| - 3)
    ensures exists k :: && MoreSuffix(|names| - 3) == " and " + k + " more"
                        && (forall i :: 0 <= i < |k| ==> Text.IsDigit(k[i]))
                        && Text.ParseNat(k) == |names| - 3
  {
    var k := Text.NatToString(|names| - 3);
    Text.ParseNatToString(|names| - 3);
    assert MoreSuffix(|names| - 3) == " and " + k + " more";
  }

  /** Names after the third never reach the label; only how many there are does. */
  lemma LabelIgnoresHiddenNames(names: seq<string>, others: seq<string>)
    requires |names| == |others| && ShownNames(names) == ShownNames(others)
    ensures ConversationLabel(names) == ConversationLabel(others)
  {
  }

  /** Five participants: three names, then " and 2 more". */
  lemma LabelOfFive(a: string, b: string, c: string, d: string, e: string)
    ensures ConversationLabel([a, b, c, d, e]) == "Conversation between " + (a + ", " + (b + ", " + c)) + " and 2 more"
  {
    assert ShownNames([a, b, c, d, e]) == [a, b, c];
    assert Text.NatToString(2) == "2";
    assert MoreSuffix(2) == " and 2 more";
    assert [a, b, c][1..] == [b, c] && [b, c][1..] == [c];
    assert Text.Join([c], ", ") == c;
    assert Text.Join([b, c], ", ") == b + ", " + c;
    assert Text.Join([a, b, c], ", ") == a + ", " + (b + ", " + c);
  }
}
