/**
 * The database behind the models: one table per model, each kept in its
 * default query order, together with the manager methods that create users
 * and the inserts that the tables' constraints guard.
 */
module Persistence {
  import opened Results
  import opened Ordering
  import opened Models

  class Store {
    /** Django's `normalize_email`, a library function this model does not open. */
    const normalizeEmail: string -> string

    var users: map<nat, User>
    var conversations: seq<Conversation>
    var messages: seq<Message>
    var properties: seq<Property>
    var bookings: seq<Booking>
    var payments: seq<Payment>
    var reviews: seq<Review>
    /** Every primary key handed out so far is below this (uuid4 never repeats). */
    var nextId: nat

    /** Every table satisfies its constraints, its ordering and its foreign keys. */
    ghost predicate Valid()
      reads this
    {
      && UsersOk(users, nextId)
      && ConversationsOk(conversations, users.Keys, nextId)
      && MessagesOk(messages, users.Keys, Pks(conversations, ConversationPk), nextId)
      && PropertiesOk(properties, users.Keys, nextId)
      && BookingsOk(bookings, Pks(properties, PropertyPk), users.Keys, nextId)
      && PaymentsOk(payments, Pks(bookings, BookingPk), users.Keys, nextId)
      && ReviewsOk(reviews, Pks(properties, PropertyPk), users.Keys, nextId)
    }

    constructor (normalize: string -> string)
      ensures Valid()
      ensures normalizeEmail == normalize
      ensures users == map[] && conversations == [] && messages == []
      ensures properties == [] && bookings == [] && payments == [] && reviews == []
    {
      normalizeEmail := normalize;
      users := map[];
      conversations, messages := [], [];
      properties, bookings, payments, reviews := [], [], [], [];
      nextId := 0;
    }

    /** `uuid.uuid4()`: a primary key no row has had. */
    method FreshId() returns (id: nat)
      requires Valid()
      modifies this`nextId
      ensures Valid()
      ensures id == old(nextId) && nextId == id + 1
    {
      id := nextId;
      nextId := nextId + 1;
    }

    /**
     * `User.save`: an empty username becomes the email, then the row is
     * written (replacing the row with the same id, if any); the unique email
     * constraint rejects a second user with the same email, leaving the table
     * as it was. The instance's id was issued by `FreshId`, as uuid4 issues it
     * when the instance is built.
     */
    method SaveUser(u: User) returns (r: Result<User, Error>)
      requires Valid()
      requires u.userId < nextId
      modifies this`users
      ensures Valid()
      ensures var saved := WithDefaultUsername(u);
              && (r.Ok? <==> !EmailInUse(old(users), saved.email, saved.userId))
              && (r.Ok? ==> r.value == saved && users == old(users)[saved.userId := saved])
              && (r.Err? ==> r.error == IntegrityError(UniqueEmailConstraint) && users == old(users))
    {
      var saved := WithDefaultUsername(u);
      if exists id :: id in users && id != saved.userId && users[id].email == saved.email {
        return Err(IntegrityError(UniqueEmailConstraint));
      }
      users := users[saved.userId := saved];
      r := Ok(saved);
    }

    /**
     * `CustomUserManager.create_user`: refuses a missing or empty email, then
     * builds a user (refused when a keyword names no field of User) whose
     * username is its normalized email, and saves it. Building the instance
     * draws its uuid, so the id is spent even when the save is refused.
     */
    method CreateUser(email: Option<string>, extra: Fields, now: int) returns (r: Result<User, Error>)
      requires Valid()
      requires KeywordsOk(extra)
      modifies this`users, this`nextId
      ensures Valid()
      ensures EmailMissing(email) ==> r == Err(ValueError(EmailRequiredMessage))
      ensures !EmailMissing(email) && !KnownFields(extra) ==> r == Err(TypeError(UnexpectedKeywordMessage))
      ensures !EmailMissing(email) && KnownFields(extra) ==>
                (r.Ok? <==> !EmailInUse(old(users), normalizeEmail(email.value), old(nextId)))
      ensures r.Ok? ==> && r.value == NewUser(old(nextId), normalizeEmail(email.value), extra, now)
                        && r.value.username == r.value.email
                        && r.value.userId !in old(users)
                        && users == old(users)[r.value.userId := r.value]
      ensures r.Err? ==> users == old(users)
      ensures nextId == if EmailMissing(email) || !KnownFields(extra) then old(nextId) else old(nextId) + 1
    {
      if email.None? || email.value == "" {
        return Err(ValueError(EmailRequiredMessage));
      }
      var normalized := normalizeEmail(email.value);
      if exists k :: k in extra && k !in UserFieldNames {
        return Err(TypeError(UnexpectedKeywordMessage));
      }
      var id := FreshId();  // the key the new row was built with
      var user := NewUser(id, normalized, extra, now);
      r := SaveUser(user);
    }

    /**
     * `CustomUserManager.create_superuser`: defaults both flags to `True`,
     * refuses any call where either is not exactly `True`, then creates the user.
     */
    method CreateSuperuser(email: Option<string>, extra: Fields, now: int) returns (r: Result<User, Error>)
      requires Valid()
      requires KeywordsOk(extra)
      modifies this`users, this`nextId
      ensures Valid()
      ensures SuperuserFields(extra).Err? ==> r == Err(SuperuserFields(extra).error) && users == old(users)
      ensures SuperuserFields(extra).Ok? && EmailMissing(email) ==>
                r == Err(ValueError(EmailRequiredMessage)) && users == old(users)
      ensures SuperuserFields(extra).Ok? && !EmailMissing(email) && !KnownFields(extra) ==>
                r == Err(TypeError(UnexpectedKeywordMessage)) && users == old(users)
      ensures r.Ok? <==> && SuperuserFields(extra).Ok? && !EmailMissing(email) && KnownFields(extra)
                         && !EmailInUse(old(users), normalizeEmail(email.value), old(nextId))
      ensures r.Ok? ==> && r.value == NewUser(old(nextId), normalizeEmail(email.value), SuperuserFields(extra).value, now)
                        && IsTrue(r.value.attrs, "is_staff") && IsTrue(r.value.attrs, "is_superuser")
                        && users == old(users)[r.value.userId := r.value]
      ensures r.Err? ==> users == old(users)
      ensures nextId == if SuperuserFields(extra).Err? || EmailMissing(email) || !KnownFields(extra)
                        then old(nextId) else old(nextId) + 1
    {
      var fields := SetDefault(extra, "is_staff", Bool(true));
      fields := SetDefault(fields, "is_superuser", Bool(true));
      if !IsTrue(fields, "is_staff") {
        return Err(ValueError(StaffRequiredMessage));
      }
      if !IsTrue(fields, "is_superuser") {
        return Err(ValueError(SuperuserRequiredMessage));
      }
      assert fields == SuperuserFields(extra).value;
      assert KnownFields(fields) <==> KnownFields(extra);
      r := CreateUser(email, fields, now);
    }

    /** A new conversation among existing users. */
    method CreateConversation(participants: set<nat>, now: int) returns (r: Result<Conversation, Error>)
      requires Valid()
      modifies this`conversations, this`nextId
      ensures Valid()
      ensures r.Ok? <==> participants <= users.Keys
      ensures r.Err? ==> r.error == ForeignKeyViolation("participants") && conversations == old(conversations)
      ensures r.Ok? ==> && r.value == Conversation(old(nextId), participants, now)
                        && r.value.conversationId !in Pks(old(conversations), ConversationPk)
                        && conversations == InsertByKey(old(conversations), r.value, ConversationOrder)
      ensures nextId == if r.Ok? then old(nextId) + 1 else old(nextId)
    {
      if !(participants <= users.Keys) {
        return Err(ForeignKeyViolation("participants"));
      }
      var c := Conversation(nextId, participants, now);
      ConversationsInsert(conversations, c, users.Keys);
      var id := FreshId();  // the key the new row was built with
      conversations := InsertByKey(conversations, c, ConversationOrder);
      r := Ok(c);
    }

    /**
     * A message insert: the non-empty body check first, then the sender and
     * the conversation must exist. Participation is not the table's concern.
     */
    method AddMessage(senderId: nat, conversationId: nat, body: string, now: int) returns (r: Result<Message, Error>)
      requires Valid()
      modifies this`messages, this`nextId
      ensures Valid()
      ensures r.Ok? <==> body != "" && senderId in users && conversationId in Pks(conversations, ConversationPk)
      ensures body == "" ==> r == Err(IntegrityError(BodyConstraint))
      ensures r.Err? ==> messages == old(messages)
      ensures r.Ok? ==> && r.value == Message(old(nextId), senderId, conversationId, body, now)
                        && r.value.messageId !in Pks(old(messages), MessagePk)
                        && messages == InsertByKey(old(messages), r.value, MessageOrder)
      ensures nextId == if r.Ok? then old(nextId) + 1 else old(nextId)
    {
      if body == "" {
        return Err(IntegrityError(BodyConstraint));
      }
      if senderId !in users {
        return Err(ForeignKeyViolation("sender"));
      }
      if conversationId !in Pks(conversations, ConversationPk) {
        return Err(ForeignKeyViolation("conversation"));
      }
      var m := Message(nextId, senderId, conversationId, body, now);
      MessagesInsert(messages, m, users.Keys, Pks(conversations, ConversationPk));
      var id := FreshId();  // the key the new row was built with
      messages := InsertByKey(messages, m, MessageOrder);
      r := Ok(m);
    }

    /** A property insert: price_per_night_non_negative, then the host must exist. */
    method AddProperty(hostId: nat, title: string, description: Option<string>, location: string,
                       pricePerNight: int, now: int) returns (r: Result<Property, Error>)
      requires Valid()
      modifies this`properties, this`nextId
      ensures Valid()
      ensures r.Ok? <==> pricePerNight >= 0 && hostId in users
      ensures pricePerNight < 0 ==> r == Err(IntegrityError(PriceConstraint))
      ensures r.Err? ==> properties == old(properties)
      ensures r.Ok? ==> && r.value == Property(old(nextId), hostId, title, description, location, pricePerNight, now, now)
                        && properties == InsertByKey(old(properties), r.value, PropertyOrder)
      ensures nextId == if r.Ok? then old(nextId) + 1 else old(nextId)
    {
      if pricePerNight < 0 {
        return Err(IntegrityError(PriceConstraint));
      }
      if hostId !in users {
        return Err(ForeignKeyViolation("host_id"));
      }
      var p := Property(nextId, hostId, title, description, location, pricePerNight, now, now);
      PropertiesInsert(properties, p, users.Keys);
      var id := FreshId();  // the key the new row was built with
      properties := InsertByKey(properties, p, PropertyOrder);
      r := Ok(p);
    }

    /** A booking insert: check_out_after_check_in, then property and guest must exist. */
    method AddBooking(propertyId: nat, userId: nat, checkIn: int, checkOut: int, totalPrice: int,
                      status: string, now: int) returns (r: Result<Booking, Error>)
      requires Valid()
      modifies this`bookings, this`nextId
      ensures Valid()
      ensures r.Ok? <==> checkOut > checkIn && propertyId in Pks(properties, PropertyPk) && userId in users
      ensures checkOut <= checkIn ==> r == Err(IntegrityError(StayConstraint))
      ensures r.Err? ==> bookings == old(bookings)
      ensures r.Ok? ==> && r.value == Booking(old(nextId), propertyId, userId, checkIn, checkOut, totalPrice, now, status)
                        && bookings == InsertByKey(old(bookings), r.value, BookingOrder)
      ensures nextId == if r.Ok? then old(nextId) + 1 else old(nextId)
    {
      if checkOut <= checkIn {
        return Err(IntegrityError(StayConstraint));
      }
      if propertyId !in Pks(properties, PropertyPk) {
        return Err(ForeignKeyViolation("property_id"));
      }
      if userId !in users {
        return Err(ForeignKeyViolation("user_id"));
      }
      var b := Booking(nextId, propertyId, userId, checkIn, checkOut, totalPrice, now, status);
      BookingsInsert(bookings, b, Pks(properties, PropertyPk), users.Keys);
      var id := FreshId();  // the key the new row was built with
      bookings := InsertByKey(bookings, b, BookingOrder);
      r := Ok(b);
    }

    /** A payment insert: payment_amount_non_negative, then booking and payer must exist. */
    method AddPayment(bookingId: nat, userId: nat, amount: int, paymentMethod: string, now: int)
      returns (r: Result<Payment, Error>)
      requires Valid()
      modifies this`payments, this`nextId
      ensures Valid()
      ensures r.Ok? <==> amount >= 0 && bookingId in Pks(bookings, BookingPk) && userId in users
      ensures amount < 0 ==> r == Err(IntegrityError(AmountConstraint))
      ensures r.Err? ==> payments == old(payments)
      ensures r.Ok? ==> && r.value == Payment(old(nextId), bookingId, userId, amount, now, paymentMethod)
                        && payments == InsertByKey(old(payments), r.value, PaymentOrder)
      ensures nextId == if r.Ok? then old(nextId) + 1 else old(nextId)
    {
      if amount < 0 {
        return Err(IntegrityError(AmountConstraint));
      }
      if bookingId !in Pks(bookings, BookingPk) {
        return Err(ForeignKeyViolation("booking_id"));
      }
      if userId !in users {
        return Err(ForeignKeyViolation("user_id"));
      }
      var p := Payment(nextId, bookingId, userId, amount, now, paymentMethod);
      PaymentsInsert(payments, p, Pks(bookings, BookingPk), users.Keys);
      var id := FreshId();  // the key the new row was built with
      payments := InsertByKey(payments, p, PaymentOrder);
      r := Ok(p);
    }

    /** A review insert: rating_between_1_and_5, then property and author must exist. */
    method AddReview(propertyId: nat, userId: nat, rating: int, comment: Option<string>, now: int)
      returns (r: Result<Review, Error>)
      requires Valid()
      modifies this`reviews, this`nextId
      ensures Valid()
      ensures r.Ok? <==> 1 <= rating <= 5 && propertyId in Pks(properties, PropertyPk) && userId in users
      ensures !(1 <= rating <= 5) ==> r == Err(IntegrityError(RatingConstraint))
      ensures r.Err? ==> reviews == old(reviews)
      ensures r.Ok? ==> && r.value == Review(old(nextId), propertyId, userId, rating, comment, now)
                        && reviews == InsertByKey(old(reviews), r.value, ReviewOrder)
      ensures nextId == if r.Ok? then old(nextId) + 1 else old(nextId)
    {
      if !(1 <= rating <= 5) {
        return Err(IntegrityError(RatingConstraint));
      }
      if propertyId !in Pks(properties, PropertyPk) {
        return Err(ForeignKeyViolation("property_id"));
      }
      if userId !in users {
        return Err(ForeignKeyViolation("user_id"));
      }
      var rv := Review(nextId, propertyId, userId, rating, comment, now);
      ReviewsInsert(reviews, rv, Pks(properties, PropertyPk), users.Keys);
      var id := FreshId();  // the key the new row was built with
      reviews := InsertByKey(reviews, rv, ReviewOrder);
      r := Ok(rv);
    }
  }
}
