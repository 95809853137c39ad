/** The prototype demo: a registration form clones itself into a new form
    with the same name and e-mail address. */
module Prototype {

  class RegistrationForm {
    var name: string
    var email: string

    constructor (name: string, email: string)
      ensures this.name == name && this.email == email
    {
      this.name := name;
      this.email := email;
    }

    /** A newly allocated form carrying copies of both fields; this form is
        left as it was. */
    method Clone() returns (form: RegistrationForm)
      ensures fresh(form)
      ensures form.name == name && form.email == email
    {
      form := new RegistrationForm(name, email);
    }
  }

  /** Changing a clone's fields leaves the prototype untouched, since the
      two are separate objects. The Go demo never writes to the prototype;
      the frame grants that write only so that the last ensures is a claim
      about separate objects and not a consequence of an empty frame. */
  method EditClone(prototype: RegistrationForm, name: string, email: string) returns (clone: RegistrationForm)
    modifies prototype
    ensures fresh(clone) && clone != prototype
    ensures clone.name == name && clone.email == email
    ensures prototype.name == old(prototype.name) && prototype.email == old(prototype.email)
  {
    clone := prototype.Clone();
    clone.name := name;
    clone.email := email;
  }

  /** The demo: the clone's fields, which the program prints, are the
      prototype's defaults. */
  method Demo() returns (name: string, email: string)
    ensures name == "Default Name" && email == "default@example.com"
  {
    var prototype := new RegistrationForm("Default Name", "default@example.com");
    var regForm := prototype.Clone();
    name, email := regForm.name, regForm.email;
  }
}
