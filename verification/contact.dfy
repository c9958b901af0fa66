/** The one entity of the contact card editor: a flat record of eight optional
    string fields, shared by the edit form and the display page. A field that is
    absent from the record (an `undefined` property) is `None`. */
module ContactRecord {

  datatype Option<+T> = None | Some(value: T)

  /** The names of the eight fields, as the form's inputs carry them. */
  datatype Field = Title | FullName | Email | MobileNumber | LinkedIn | Facebook | Instagram | X

  datatype Contact = Contact(
    title: Option<string>,
    fullName: Option<string>,
    email: Option<string>,
    mobileNumber: Option<string>,
    linkedIn: Option<string>,
    facebook: Option<string>,
    instagram: Option<string>,
    x: Option<string>)
  {
    /** The value stored under field `f`. */
    function Get(f: Field): Option<string> {
      match f
      case Title => title
      case FullName => fullName
      case Email => email
      case MobileNumber => mobileNumber
      case LinkedIn => linkedIn
      case Facebook => facebook
      case Instagram => instagram
      case X => x
    }

    /** The record with field `f` replaced by `v` (`{ ...prev, [name]: v }`). */
    function WithValue(f: Field, v: Option<string>): (r: Contact)
      ensures r.Get(f) == v
      ensures forall g :: g != f ==> r.Get(g) == Get(g)
    {
      match f
      case Title => this.(title := v)
      case FullName => this.(fullName := v)
      case Email => this.(email := v)
      case MobileNumber => this.(mobileNumber := v)
      case LinkedIn => this.(linkedIn := v)
      case Facebook => this.(facebook := v)
      case Instagram => this.(instagram := v)
      case X => this.(x := v)
    }

    /** The record after an input named `f` reports the text `v`. */
    function With(f: Field, v: string): (r: Contact)
      ensures r.Get(f) == Some(v)
      ensures forall g :: g != f ==> r.Get(g) == Get(g)
    {
      WithValue(f, Some(v))
    }
  }

  /** JavaScript's `v || fallback` for a string that may be undefined: the empty
      string and `undefined` are both falsy. */
  function OrElse(v: Option<string>, fallback: string): (r: string)
    ensures v.Some? && v.value != "" ==> r == v.value
    ensures v == None || v == Some("") ==> r == fallback
  {
    if v.Some? && v.value != "" then v.value else fallback
  }

  /** `v || ""`: the text of a field, empty when the field is absent. */
  function Text(v: Option<string>): (r: string)
    ensures v.Some? ==> r == v.value
    ensures v.None? ==> r == ""
  {
    OrElse(v, "")
  }

  /** The draft the form starts from: every field present and empty. */
  function EmptyDraft(): (r: Contact)
    ensures forall f :: r.Get(f) == Some("")
  {
    Contact(Some(""), Some(""), Some(""), Some(""), Some(""), Some(""), Some(""), Some(""))
  }

  /** Two records that agree on every field are the same record. */
  lemma {:induction false} Extensionality(a: Contact, b: Contact)
    requires forall f :: a.Get(f) == b.Get(f)
    ensures a == b
  {
    assert a.Get(Title) == b.Get(Title) && a.Get(FullName) == b.Get(FullName);
    assert a.Get(Email) == b.Get(Email) && a.Get(MobileNumber) == b.Get(MobileNumber);
    assert a.Get(LinkedIn) == b.Get(LinkedIn) && a.Get(Facebook) == b.Get(Facebook);
    assert a.Get(Instagram) == b.Get(Instagram) && a.Get(X) == b.Get(X);
  }

  /** Reporting the same input twice has the effect of reporting it once. */
  lemma {:induction false} WithIdempotent(c: Contact, f: Field, v: string)
    ensures c.With(f, v).With(f, v) == c.With(f, v)
  {
    var once := c.With(f, v);
    var twice := once.With(f, v);
    forall g ensures twice.Get(g) == once.Get(g) {
      if g != f {
        assert twice.Get(g) == once.Get(g);
      }
    }
    Extensionality(twice, once);
  }

  /** Edits of two different fields commute. */
  lemma {:induction false} WithCommutes(c: Contact, f: Field, v: string, g: Field, w: string)
    requires f != g
    ensures c.With(f, v).With(g, w) == c.With(g, w).With(f, v)
  {
    var a := c.With(f, v).With(g, w);
    var b := c.With(g, w).With(f, v);
    forall h ensures a.Get(h) == b.Get(h) {
    }
    Extensionality(a, b);
  }
}
