/** The input schemas of src/lib/validations.ts as predicates. A schema
    accepts an input exactly when its predicate holds. The library's own
    e-mail, uuid and URL checks are parameters (`isEmail`, `isUuid`,
    `isUrl`); prices are whole cents. */
module Validations {
  import opened Common
  import Records

  // ---------------------------------------------------------------------------
  // Building blocks

  predicate LengthBetween(s: string, lo: int, hi: int) {
    lo <= |s| <= hi
  }

  /** `/^[a-zA-Z\s]+$/`. */
  predicate FullNamePattern(s: string) {
    |s| >= 1 && forall i :: 0 <= i < |s| ==> IsAsciiLetter(s[i]) || IsJsWhitespace(s[i])
  }

  /** A full name of the sign-up and guest forms. */
  predicate ValidFullName(s: string) {
    LengthBetween(s, 2, 50) && FullNamePattern(s)
  }

  /** `[\d\s\-\(\)]`. */
  predicate IsPhoneChar(c: char) {
    IsDigit(c) || IsJsWhitespace(c) || c == '-' || c == '(' || c == ')'
  }

  predicate AllPhoneChars(s: string) {
    forall i :: 0 <= i < |s| ==> IsPhoneChar(s[i])
  }

  /** `/^\+?[\d\s\-\(\)]+$/`: the optional plus is tried first, then without it. */
  predicate PhonePattern(s: string) {
    (|s| >= 2 && s[0] == '+' && AllPhoneChars(s[1..])) || (|s| >= 1 && AllPhoneChars(s))
  }

  /** A phone number of the sign-up and guest forms. */
  predicate ValidPhone(s: string) {
    LengthBetween(s, 10, 15) && PhonePattern(s)
  }

  /** The lookahead `(?=.*[class])` at the start of the text: a character of
      the class occurs before the first line terminator (`.` does not match
      one). */
  predicate LookaheadFinds(s: string, inClass: char -> bool)
    decreases |s|
  {
    s != [] && (inClass(s[0]) || (!IsLineTerminator(s[0]) && LookaheadFinds(s[1..], inClass)))
  }

  /** `[@$!%*?&]`. */
  predicate IsPasswordSpecial(c: char) {
    c == '@' || c == '$' || c == '!' || c == '%' || c == '*' || c == '?' || c == '&'
  }

  function IsLowerClass(): char -> bool { c => IsAsciiLower(c) }
  function IsUpperClass(): char -> bool { c => IsAsciiUpper(c) }
  function IsDigitClass(): char -> bool { c => IsDigit(c) }
  function IsSpecialClass(): char -> bool { c => IsPasswordSpecial(c) }

  /** `signUpSchema.password`. */
  predicate ValidSignUpPassword(p: string) {
    LengthBetween(p, 6, 100)
    && LookaheadFinds(p, IsLowerClass()) && LookaheadFinds(p, IsUpperClass()) && LookaheadFinds(p, IsDigitClass())
  }

  /** `adminCreateSchema.password`. */
  predicate ValidAdminPassword(p: string) {
    |p| >= 8
    && LookaheadFinds(p, IsLowerClass()) && LookaheadFinds(p, IsUpperClass()) && LookaheadFinds(p, IsDigitClass())
    && LookaheadFinds(p, IsSpecialClass())
  }

  /** The lookahead succeeds exactly when a character of the class comes
      before every line terminator. */
  lemma {:induction false} LookaheadSpec(s: string, inClass: char -> bool)
    requires forall c :: inClass(c) ==> !IsLineTerminator(c)
    ensures LookaheadFinds(s, inClass) <==>
              exists i :: 0 <= i < |s| && inClass(s[i]) && forall j :: 0 <= j < i ==> !IsLineTerminator(s[j])
    decreases |s|
  {
    if s != [] {
      LookaheadSpec(s[1..], inClass);
      if LookaheadFinds(s, inClass) && !inClass(s[0]) {
        var i :| 0 <= i < |s[1..]| && inClass(s[1..][i]) && forall j :: 0 <= j < i ==> !IsLineTerminator(s[1..][j]);
        assert inClass(s[i + 1]) && forall j :: 0 <= j < i + 1 ==> !IsLineTerminator(s[j]);
      }
      if exists i :: 0 <= i < |s| && inClass(s[i]) && forall j :: 0 <= j < i ==> !IsLineTerminator(s[j]) {
        var i :| 0 <= i < |s| && inClass(s[i]) && forall j :: 0 <= j < i ==> !IsLineTerminator(s[j]);
        if i > 0 {
          assert inClass(s[1..][i - 1]) && forall j :: 0 <= j < i - 1 ==> !IsLineTerminator(s[1..][j]);
        }
      }
    }
  }

  /** On a single-line password the sign-up rule is exactly: 6 to 100
      characters with a lower-case letter, an upper-case letter and a digit. */
  lemma SignUpPasswordSpec(p: string)
    requires forall i :: 0 <= i < |p| ==> !IsLineTerminator(p[i])
    ensures ValidSignUpPassword(p) <==>
              6 <= |p| <= 100
              && (exists i :: 0 <= i < |p| && IsAsciiLower(p[i]))
              && (exists i :: 0 <= i < |p| && IsAsciiUpper(p[i]))
              && (exists i :: 0 <= i < |p| && IsDigit(p[i]))
  {
    LookaheadSpec(p, IsLowerClass());
    LookaheadSpec(p, IsUpperClass());
    LookaheadSpec(p, IsDigitClass());
  }

  /** On a single-line password the admin rule adds a special character from
      @$!%*?& and a minimum of 8 characters. */
  lemma AdminPasswordSpec(p: string)
    requires forall i :: 0 <= i < |p| ==> !IsLineTerminator(p[i])
    ensures ValidAdminPassword(p) <==>
              |p| >= 8
              && (exists i :: 0 <= i < |p| && IsAsciiLower(p[i]))
              && (exists i :: 0 <= i < |p| && IsAsciiUpper(p[i]))
              && (exists i :: 0 <= i < |p| && IsDigit(p[i]))
              && (exists i :: 0 <= i < |p| && IsPasswordSpecial(p[i]))
  {
    LookaheadSpec(p, IsLowerClass());
    LookaheadSpec(p, IsUpperClass());
    LookaheadSpec(p, IsDigitClass());
    LookaheadSpec(p, IsSpecialClass());
  }

  /** Every admin password of at most 100 characters is also a valid
      sign-up password. */
  lemma AdminPasswordIsSignUpPassword(p: string)
    requires ValidAdminPassword(p) && |p| <= 100
    ensures ValidSignUpPassword(p)
  {
  }

  /** A character the lookahead cannot see past: the upper-case letter after
      a line break does not count. */
  lemma LookaheadStopsAtLineBreak()
    ensures !ValidSignUpPassword("abc1\nABC")
    ensures ValidSignUpPassword("abc1ABC")
  {
    assert !LookaheadFinds("abc1\nABC"[1..][1..][1..][1..], IsUpperClass());
    assert !LookaheadFinds("abc1\nABC"[1..][1..][1..], IsUpperClass());
    assert !LookaheadFinds("abc1\nABC"[1..][1..], IsUpperClass());
    assert !LookaheadFinds("abc1\nABC"[1..], IsUpperClass());
    assert "abc1ABC"[1..][1..][1..][1..][0] == 'A';
    assert LookaheadFinds("abc1ABC"[1..][1..][1..][1..], IsUpperClass());
    assert LookaheadFinds("abc1ABC"[1..][1..][1..], IsUpperClass());
    assert LookaheadFinds("abc1ABC"[1..][1..], IsUpperClass());
    assert LookaheadFinds("abc1ABC"[1..], IsUpperClass());
    assert "abc1ABC"[1..][1..][1..][0] == '1';
    assert LookaheadFinds("abc1ABC"[1..][1..][1..], IsDigitClass());
    assert LookaheadFinds("abc1ABC"[1..][1..], IsDigitClass());
    assert LookaheadFinds("abc1ABC"[1..], IsDigitClass());
  }

  /** The phone pattern: one or more allowed characters, the first of which
      may instead be a single leading plus. */
  lemma PhonePatternSpec(s: string)
    ensures PhonePattern(s) <==>
              |s| >= 1
              && (IsPhoneChar(s[0]) || (s[0] == '+' && |s| >= 2))
              && forall i :: 1 <= i < |s| ==> IsPhoneChar(s[i])
  {
    if |s| >= 2 && s[0] == '+' && AllPhoneChars(s[1..]) {
      assert forall i :: 1 <= i < |s| ==> s[i] == s[1..][i - 1];
    }
    if |s| >= 1 && (IsPhoneChar(s[0]) || (s[0] == '+' && |s| >= 2)) && forall i :: 1 <= i < |s| ==> IsPhoneChar(s[i]) {
      if s[0] == '+' {
        assert forall i :: 0 <= i < |s[1..]| ==> s[1..][i] == s[i + 1];
      }
    }
  }

  lemma ExamplePhoneAccepted()
    ensures ValidPhone("+1 555 123 4567")
  {
    var s := "+1 555 123 4567";
    assert s[1..] == "1 555 123 4567";
    forall i | 0 <= i < |s[1..]|
      ensures IsPhoneChar(s[1..][i])
    {
      assert IsDigit(s[1..][i]) || s[1..][i] == ' ';
    }
  }

  lemma ExamplePhonesRefused()
    ensures !ValidPhone("555-CALL-NOW")
    ensures !ValidPhone("++15551234567")
  {
    PhonePatternSpec("555-CALL-NOW");
    PhonePatternSpec("++15551234567");
    assert "555-CALL-NOW"[4] == 'C';
    assert "++15551234567"[1] == '+';
  }

  lemma ExampleFullNames()
    ensures ValidFullName("Jane Doe")
    ensures !ValidFullName("J")
    ensures !ValidFullName("Jane Doe 3rd")
  {
    assert "Jane Doe 3rd"[9] == '3';
  }

  // ---------------------------------------------------------------------------
  // Schemas

  datatype SignUpInput = SignUpInput(email: string, password: string, fullName: string, phone: string)

  /** `signUpSchema`. */
  predicate ValidSignUp(x: SignUpInput, isEmail: string -> bool) {
    |x.email| >= 1 && isEmail(x.email) && |x.email| <= 100
    && ValidSignUpPassword(x.password)
    && ValidFullName(x.fullName)
    && ValidPhone(x.phone)
  }

  datatype GuestInfoInput = GuestInfoInput(fullName: string, phone: string, email: string)

  /** `guestInfoSchema`. */
  predicate ValidGuestInfo(x: GuestInfoInput, isEmail: string -> bool) {
    ValidFullName(x.fullName) && ValidPhone(x.phone) && |x.email| >= 1 && isEmail(x.email)
  }

  /** The guest form asks the same of a name and a phone as sign-up does. */
  lemma GuestFieldsMatchSignUp(x: SignUpInput, isEmail: string -> bool)
    requires ValidSignUp(x, isEmail)
    ensures ValidGuestInfo(GuestInfoInput(x.fullName, x.phone, x.email), isEmail)
  {
  }

  datatype OrderInput = OrderInput(
    customerName: string,
    customerEmail: string,
    customerPhone: string,
    deliveryAddress: string,
    specialInstructions: Option<string>)

  /** `orderSchema`; the order phone has no upper length bound. */
  predicate ValidOrderInput(x: OrderInput, isEmail: string -> bool) {
    LengthBetween(x.customerName, 2, 50)
    && isEmail(x.customerEmail)
    && |x.customerPhone| >= 10 && PhonePattern(x.customerPhone)
    && LengthBetween(x.deliveryAddress, 10, 200)
    && (x.specialInstructions.Some? ==> |x.specialInstructions.value| <= 500)
  }

  /** Omitted instructions never make an order invalid; long ones do. */
  lemma OrderInstructionsOptional(x: OrderInput, isEmail: string -> bool)
    ensures ValidOrderInput(x, isEmail) ==> ValidOrderInput(x.(specialInstructions := None), isEmail)
    ensures x.specialInstructions.Some? && |x.specialInstructions.value| > 500 ==> !ValidOrderInput(x, isEmail)
  {
  }

  datatype AdminCreateInput = AdminCreateInput(email: string, password: string, fullName: string)

  /** `adminCreateSchema`; the admin full name has no character rule. */
  predicate ValidAdminCreate(x: AdminCreateInput, isEmail: string -> bool) {
    isEmail(x.email) && ValidAdminPassword(x.password) && LengthBetween(x.fullName, 2, 50)
  }

  /** `price` of the menu schemas: from 0.01 to 999.99, in cents. */
  predicate ValidPriceCents(cents: int) {
    1 <= cents <= 99999
  }

  /** `z.enum(['morning', 'afternoon', 'dinner'])`. */
  predicate ValidCategory(c: string) {
    c == "morning" || c == "afternoon" || c == "dinner"
  }

  lemma CategoryMatchesRecords(c: string)
    ensures ValidCategory(c) <==> c in Records.MenuCategories
  {
  }

  datatype MenuItemInput = MenuItemInput(
    name: string,
    description: string,
    priceCents: int,
    category: string,
    isAvailable: bool,
    isVegetarian: bool,
    imageUrl: Option<string>)

  /** `menuItemSchema`. */
  predicate ValidMenuItem(x: MenuItemInput, isUrl: string -> bool) {
    LengthBetween(x.name, 2, 100)
    && LengthBetween(x.description, 10, 500)
    && ValidPriceCents(x.priceCents)
    && ValidCategory(x.category)
    && (x.imageUrl.Some? ==> isUrl(x.imageUrl.value))
  }

  /** The file of an upload: its size in bytes and its MIME type. */
  datatype FileInfo = FileInfo(size: int, mimeType: string)

  /** `file` is `None` when the value is not a `File`. */
  datatype FileUploadInput = FileUploadInput(file: Option<FileInfo>, altText: Option<string>)

  const MaxUploadBytes := 5 * 1024 * 1024
  const AllowedImageTypes: seq<string> := ["image/jpeg", "image/jpg", "image/png", "image/webp"]

  /** `fileUploadSchema`. */
  predicate ValidFileUpload(x: FileUploadInput) {
    x.file.Some?
    && x.file.value.size <= MaxUploadBytes
    && x.file.value.mimeType in AllowedImageTypes
    && (x.altText.Some? ==> LengthBetween(x.altText.value, 3, 100))
  }

  /** `[a-zA-Z0-9\s\-\&\'\,\.]`. */
  predicate IsMenuNameChar(c: char) {
    IsAlphanumeric(c) || IsJsWhitespace(c) || c == '-' || c == '&' || c == '\'' || c == ',' || c == '.'
  }

  /** `adminMenuItemCreateSchema.name`. */
  predicate ValidAdminMenuName(s: string) {
    LengthBetween(s, 2, 100) && forall i :: 0 <= i < |s| ==> IsMenuNameChar(s[i])
  }

  /** The admin create form, with the two flags possibly omitted. */
  datatype AdminMenuItemDraft = AdminMenuItemDraft(
    name: string,
    description: string,
    priceCents: int,
    category: string,
    isAvailable: Option<bool>,
    isVegetarian: Option<bool>,
    image: Option<FileUploadInput>)

  /** What a successful parse returns: the flags with their defaults filled in. */
  datatype AdminMenuItem = AdminMenuItem(
    name: string,
    description: string,
    priceCents: int,
    category: string,
    isAvailable: bool,
    isVegetarian: bool,
    image: Option<FileUploadInput>)

  function FlagOr(b: Option<bool>, default: bool): bool {
    if b.Some? then b.value else default
  }

  /** `adminMenuItemCreateSchema.safeParse(x)`: `None` on failure. */
  function ParseAdminMenuItem(x: AdminMenuItemDraft): (r: Option<AdminMenuItem>)
    ensures r.Some? <==>
              ValidAdminMenuName(x.name) && LengthBetween(x.description, 10, 500)
              && ValidPriceCents(x.priceCents) && ValidCategory(x.category)
              && (x.image.Some? ==> ValidFileUpload(x.image.value))
    ensures r.Some? ==>
              r.value.name == x.name && r.value.description == x.description
              && r.value.priceCents == x.priceCents && r.value.category == x.category
              && r.value.image == x.image
              && (r.value.isAvailable <==> x.isAvailable != Some(false))
              && (r.value.isVegetarian <==> x.isVegetarian == Some(true))
  {
    if ValidAdminMenuName(x.name) && LengthBetween(x.description, 10, 500)
       && ValidPriceCents(x.priceCents) && ValidCategory(x.category)
       && (x.image.Some? ==> ValidFileUpload(x.image.value))
    then Some(AdminMenuItem(x.name, x.description, x.priceCents, x.category,
                            FlagOr(x.isAvailable, true), FlagOr(x.isVegetarian, false), x.image))
    else None
  }

  /** The admin create schema is stricter than `menuItemSchema`: every
      item it accepts, without an image URL, passes the plain schema too,
      while a name the plain schema accepts can still be refused. */
  lemma AdminMenuNameStricter(x: AdminMenuItemDraft, isUrl: string -> bool)
    ensures ParseAdminMenuItem(x).Some? ==>
              var i := ParseAdminMenuItem(x).value;
              ValidMenuItem(MenuItemInput(i.name, i.description, i.priceCents, i.category,
                                          i.isAvailable, i.isVegetarian, None), isUrl)
    ensures LengthBetween("Fish <b>", 2, 100) && !ValidAdminMenuName("Fish <b>")
  {
    assert !IsMenuNameChar("Fish <b>"[5]);
  }

  /** `z.enum` of the six order statuses. */
  predicate ValidOrderStatus(s: string) {
    s == "pending" || s == "confirmed" || s == "preparing" || s == "ready" || s == "delivered" || s == "cancelled"
  }

  lemma OrderStatusMatchesRecords(s: string)
    ensures ValidOrderStatus(s) <==> s in Records.OrderStatuses
  {
  }

  datatype OrderStatusUpdate = OrderStatusUpdate(orderId: string, status: string, adminNotes: Option<string>)

  /** `orderStatusUpdateSchema`. */
  predicate ValidOrderStatusUpdate(x: OrderStatusUpdate, isUuid: string -> bool) {
    isUuid(x.orderId) && ValidOrderStatus(x.status) && (x.adminNotes.Some? ==> |x.adminNotes.value| <= 200)
  }

  datatype AdminUserUpdate = AdminUserUpdate(userId: string, role: string, isActive: Option<bool>)

  /** `adminUserUpdateSchema`: the role is customer or admin. */
  predicate ValidAdminUserUpdate(x: AdminUserUpdate, isUuid: string -> bool) {
    isUuid(x.userId) && (x.role == "customer" || x.role == "admin")
  }

  /** No update can give a user the owner or super-admin role. */
  lemma AdminUserUpdateRoles(x: AdminUserUpdate, isUuid: string -> bool)
    requires ValidAdminUserUpdate(x, isUuid)
    ensures x.role != "restaurant_owner" && x.role != "superadmin" && x.role != "guest"
  {
  }

  datatype BulkMenuUpdate = BulkMenuUpdate(itemIds: seq<string>, action: string, confirmDelete: Option<bool>)

  /** `bulkMenuUpdateSchema` with its refinement. */
  predicate ValidBulkMenuUpdate(x: BulkMenuUpdate, isUuid: string -> bool) {
    |x.itemIds| >= 1
    && (forall i :: 0 <= i < |x.itemIds| ==> isUuid(x.itemIds[i]))
    && (x.action == "activate" || x.action == "deactivate" || x.action == "delete")
    && (x.action != "delete" || x.confirmDelete == Some(true))
  }

  /** A bulk delete needs `confirmDelete === true`; other actions ignore the
      flag; an empty selection is always refused. */
  lemma BulkMenuUpdateSpec(x: BulkMenuUpdate, isUuid: string -> bool, flag: Option<bool>)
    ensures x.action == "delete" && x.confirmDelete != Some(true) ==> !ValidBulkMenuUpdate(x, isUuid)
    ensures x.action != "delete" ==>
              (ValidBulkMenuUpdate(x, isUuid) <==> ValidBulkMenuUpdate(x.(confirmDelete := flag), isUuid))
    ensures x.itemIds == [] ==> !ValidBulkMenuUpdate(x, isUuid)
  {
  }
}
