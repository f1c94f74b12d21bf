/** CreateUserDto (src/interfaces/controller/user/dto/create-user.dto.ts): the
 *  per-field rules the validation pipe applies to a create-user body. */
module CreateUserDto {
  /** A body property as received: a string, or anything else (absent,
   *  null, a number, an object). */
  datatype Input = Text(s: string) | NotText

  datatype CreateUserDto = CreateUserDto(firstname: Input, lastname: Input, email: Input, password: Input)

  datatype Field = Firstname | Lastname | Email | Password

  const MinLength := 3

  /** The text-presentation and emoji-presentation selectors, which the
   *  length rules do not count. */
  predicate IsPresentationSelector(c: char) {
    c == '\U{FE0E}' || c == '\U{FE0F}'
  }

  /** The length MinLength and MaxLength measure (validator.js `isLength`):
   *  code points, less the presentation selectors. */
  function Length(s: string): (n: nat)
    ensures n <= |s|
    ensures n == |s| <==> forall i | 0 <= i < |s| :: !IsPresentationSelector(s[i])
    ensures n == 0 <==> forall i | 0 <= i < |s| :: IsPresentationSelector(s[i])
  {
    if s == [] then 0
    else
      var rest := Length(s[1..]);
      assert forall i | 1 <= i < |s| :: s[i] == s[1..][i - 1];
      (if IsPresentationSelector(s[0]) then 0 else 1) + rest
  }

  /** `@MaxLength` of each field. */
  function MaxLength(f: Field): nat {
    if f == Firstname then 50 else 150
  }

  function Get(dto: CreateUserDto, f: Field): Input {
    match f
    case Firstname => dto.firstname
    case Lastname => dto.lastname
    case Email => dto.email
    case Password => dto.password
  }

  /** IsString, IsNotEmpty, MinLength(3) and MaxLength of one field, and
   *  IsEmail (a rule of its own, given as `isEmail`) for the email. */
  predicate FieldValid(dto: CreateUserDto, f: Field, isEmail: string -> bool)
    // a valid field is a string of at least three code points within its bounds
    ensures FieldValid(dto, f, isEmail) ==>
      && Get(dto, f).Text?
      && MinLength <= Length(Get(dto, f).s) <= MaxLength(f)
      && |Get(dto, f).s| >= MinLength
    ensures FieldValid(dto, f, isEmail) && f == Email ==> isEmail(dto.email.s)
  {
    var v := Get(dto, f);
    && v.Text?
    && v.s != ""
    && MinLength <= Length(v.s) <= MaxLength(f)
    && (f == Email ==> isEmail(v.s))
  }

  predicate Valid(dto: CreateUserDto, isEmail: string -> bool)
    // an accepted body holds a string in every field
    ensures Valid(dto, isEmail) ==>
      dto.firstname.Text? && dto.lastname.Text? && dto.email.Text? && dto.password.Text?
    // every field passes its rules
    ensures Valid(dto, isEmail) <==> forall f: Field :: FieldValid(dto, f, isEmail)
  {
    && FieldValid(dto, Firstname, isEmail)
    && FieldValid(dto, Lastname, isEmail)
    && FieldValid(dto, Email, isEmail)
    && FieldValid(dto, Password, isEmail)
  }

  /** `[f]` when f breaks a rule, `[]` otherwise. */
  function Check(dto: CreateUserDto, f: Field, isEmail: string -> bool): seq<Field> {
    if FieldValid(dto, f, isEmail) then [] else [f]
  }

  /** The fields that fail a rule, in declaration order. */
  function Violations(dto: CreateUserDto, isEmail: string -> bool): (r: seq<Field>)
    ensures forall f: Field :: f in r <==> !FieldValid(dto, f, isEmail)
    ensures r == [] <==> Valid(dto, isEmail)
    ensures forall i, j :: 0 <= i < j < |r| ==> r[i] != r[j]
  {
    var first := Check(dto, Firstname, isEmail) + Check(dto, Lastname, isEmail);
    var second := Check(dto, Email, isEmail) + Check(dto, Password, isEmail);
    assert forall f: Field :: f in first <==> (f == Firstname || f == Lastname) && !FieldValid(dto, f, isEmail);
    assert forall f: Field :: f in second <==> (f == Email || f == Password) && !FieldValid(dto, f, isEmail);
    first + second
  }

  /** Each field's rule in closed form: IsNotEmpty adds nothing to MinLength(3). */
  lemma FieldRules(dto: CreateUserDto, isEmail: string -> bool)
    ensures FieldValid(dto, Firstname, isEmail) <==> dto.firstname.Text? && 3 <= Length(dto.firstname.s) <= 50
    ensures FieldValid(dto, Lastname, isEmail) <==> dto.lastname.Text? && 3 <= Length(dto.lastname.s) <= 150
    ensures FieldValid(dto, Email, isEmail) <==> dto.email.Text? && 3 <= Length(dto.email.s) <= 150 && isEmail(dto.email.s)
    ensures FieldValid(dto, Password, isEmail) <==> dto.password.Text? && 3 <= Length(dto.password.s) <= 150
  {
  }

  /** An accepted body has four non-empty strings, the email one the email rule accepts. */
  lemma AcceptedHasFourStrings(dto: CreateUserDto, isEmail: string -> bool)
    requires Valid(dto, isEmail)
    ensures dto.firstname.Text? && dto.lastname.Text? && dto.email.Text? && dto.password.Text?
    ensures Length(dto.firstname.s) >= 3 && Length(dto.lastname.s) >= 3 && Length(dto.email.s) >= 3 && Length(dto.password.s) >= 3
    ensures Length(dto.firstname.s) <= 50 && isEmail(dto.email.s)
  {
    assert FieldValid(dto, Firstname, isEmail);
    assert FieldValid(dto, Lastname, isEmail);
    assert FieldValid(dto, Email, isEmail);
    assert FieldValid(dto, Password, isEmail);
  }

  /** "ab" followed by an emoji-presentation selector has length 2: it is
   *  refused by MinLength(3), although it holds three code points. */
  lemma SelectorNotCounted()
    ensures Length("ab\U{FE0F}") == 2 && |"ab\U{FE0F}"| == 3
    ensures forall isEmail: string -> bool ::
      !FieldValid(CreateUserDto(Text("ab\U{FE0F}"), Text("abc"), Text("abc"), Text("abc")), Firstname, isEmail)
  {
    var s := "ab\U{FE0F}";
    assert s[1..][1..][1..] == [];
    assert Length(s[1..][1..]) == 0;
  }
}
