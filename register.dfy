/** The registration page: a six-field form, edited one field at a time, that
    is stored as "userData" once all three emergency contacts are filled in. */
module Register {
  import opened Platform
  import opened Text

  datatype Field = Name | Email | Password | Contact1 | Contact2 | Contact3

  /** The inputs, in the order the page renders them. */
  const Fields: seq<Field> := [Name, Email, Password, Contact1, Contact2, Contact3]

  /** The `name` attribute of each input, which is also the key in `formData`. */
  function FieldName(f: Field): string
  {
    match f
    case Name => "name"
    case Email => "email"
    case Password => "password"
    case Contact1 => "contact1"
    case Contact2 => "contact2"
    case Contact3 => "contact3"
  }

  const EmptyForm := Profile("", "", "", "", "", "")

  function Get(p: Profile, f: Field): string
  {
    match f
    case Name => p.name
    case Email => p.email
    case Password => p.password
    case Contact1 => p.contact1
    case Contact2 => p.contact2
    case Contact3 => p.contact3
  }

  /** `{ ...formData, [name]: value }` */
  function Set(p: Profile, f: Field, v: string): (r: Profile)
    ensures Get(r, f) == v
    ensures forall g :: g != f ==> Get(r, g) == Get(p, g)
  {
    match f
    case Name => p.(name := v)
    case Email => p.(email := v)
    case Password => p.(password := v)
    case Contact1 => p.(contact1 := v)
    case Contact2 => p.(contact2 := v)
    case Contact3 => p.(contact3 := v)
  }

  /** A form is determined by its six fields. */
  lemma {:induction false} FormExtensional(p: Profile, q: Profile)
    requires forall f :: Get(p, f) == Get(q, f)
    ensures p == q
  {
    assert Get(p, Name) == Get(q, Name) && Get(p, Email) == Get(q, Email);
    assert Get(p, Password) == Get(q, Password) && Get(p, Contact1) == Get(q, Contact1);
    assert Get(p, Contact2) == Get(q, Contact2) && Get(p, Contact3) == Get(q, Contact3);
  }

  /** Edits to different fields commute, and the last edit of a field wins. */
  lemma SetCommutesLastWins(p: Profile, f: Field, v: string, g: Field, w: string)
    ensures f != g ==> Set(Set(p, f, v), g, w) == Set(Set(p, g, w), f, v)
    ensures Set(Set(p, f, v), f, w) == Set(p, f, w)
  {
    if f != g {
      FormExtensional(Set(Set(p, f, v), g, w), Set(Set(p, g, w), f, v));
    }
    FormExtensional(Set(Set(p, f, v), f, w), Set(p, f, w));
  }

  const MissingContactsAlert := "Please provide 3 emergency contacts"
  const RegisteredAlert := "Registration Successful \U{1F680}"
  const HomePath := "/home"

  /** The only check `handleRegister` makes: name, email and password may be empty. */
  predicate ContactsComplete(p: Profile)
  {
    p.contact1 != "" && p.contact2 != "" && p.contact3 != ""
  }

  class RegisterPage {
    var formData: Profile

    constructor ()
      ensures formData == EmptyForm
    {
      formData := EmptyForm;
    }

    method HandleChange(f: Field, value: string)
      modifies this
      ensures formData == Set(old(formData), f, value)
    {
      formData := Set(formData, f, value);
    }

    /** Stores the form and goes home, or refuses with an alert when a contact
        is missing; the form itself is left as it is. */
    method HandleRegister(b: Browser)
      modifies b
      ensures ContactsComplete(formData) ==>
        b.userData == Some(formData) && b.log == old(b.log) + [Alert(RegisteredAlert), Navigate(HomePath)]
      ensures !ContactsComplete(formData) ==>
        b.userData == old(b.userData) && b.log == old(b.log) + [Alert(MissingContactsAlert)]
    {
      if formData.contact1 == "" || formData.contact2 == "" || formData.contact3 == "" {
        b.log := b.log + [Alert(MissingContactsAlert)];
        return;
      }
      b.userData := Some(formData);
      b.log := b.log + [Alert(RegisteredAlert)];
      b.log := b.log + [Navigate(HomePath)];
    }
  }

  /** The `type` of the input for a field. */
  function InputType(field: string): string
  {
    if field == "password" then "password"
    else if Includes(field, "contact") then "tel"
    else "text"
  }

  /** The `placeholder` of the input for a field. */
  function Placeholder(field: string): string
  {
    if Includes(field, "contact") then "Emergency Contact " + LastChar(field)
    else UpperFirst(field)
  }

  predicate IsContact(f: Field)
  {
    f == Contact1 || f == Contact2 || f == Contact3
  }

  /** A string without the first letter of `w` cannot contain `w`. */
  lemma NotIncludesWithoutFirst(s: string, w: string)
    requires |w| > 0 && w[0] !in s
    ensures !Includes(s, w)
  {
    forall i | 0 <= i && i + |w| <= |s|
      ensures !OccursAt(s, w, i)
    {
      assert s[i..i + |w|][0] == s[i] && s[i] in s;
    }
  }

  /** Only a contact field's name contains "contact". */
  lemma ContactFieldNames(f: Field)
    ensures Includes(FieldName(f), "contact") <==> IsContact(f)
  {
    if IsContact(f) {
      assert FieldName(f) == "" + "contact" + LastChar(FieldName(f));
      IncludesOfConcat("", "contact", LastChar(FieldName(f)));
    } else {
      assert 'c' !in FieldName(f);
      NotIncludesWithoutFirst(FieldName(f), "contact");
    }
  }

  /** password for the password field, tel for contacts, text otherwise. */
  lemma InputTypes(f: Field)
    ensures InputType(FieldName(f)) ==
      if f == Password then "password" else if IsContact(f) then "tel" else "text"
  {
    ContactFieldNames(f);
  }

  /** "Emergency Contact k" for the k-th contact; otherwise the capitalised name. */
  lemma Placeholders(f: Field)
    ensures Placeholder(FieldName(f)) ==
      match f
      case Name => "Name"
      case Email => "Email"
      case Password => "Password"
      case Contact1 => "Emergency Contact 1"
      case Contact2 => "Emergency Contact 2"
      case Contact3 => "Emergency Contact 3"
  {
    ContactFieldNames(f);
  }

  /** No two of the rendered inputs share a placeholder. */
  lemma PlaceholdersDistinct()
    ensures forall i, j :: 0 <= i < j < |Fields| ==>
      Placeholder(FieldName(Fields[i])) != Placeholder(FieldName(Fields[j]))
  {
    forall i, j | 0 <= i < j < |Fields|
      ensures Placeholder(FieldName(Fields[i])) != Placeholder(FieldName(Fields[j]))
    {
      Placeholders(Fields[i]);
      Placeholders(Fields[j]);
    }
  }
}
