/**
 * The registration page (Register.jsx): the request body `handleRegister`
 * builds from the form before posting it to the users endpoint.
 */
module Register {

  /** The JSON values the payload holds. */
  datatype Json = Str(s: string) | Obj(fields: map<string, Json>)

  /** `formData`: four text inputs. */
  datatype RegisterForm = RegisterForm(username: string, email: string, password: string, companyName: string)

  /** The form as a JSON object, in the shape the spread copies. */
  function FormObject(form: RegisterForm): map<string, Json>
  {
    map["username" := Str(form.username), "email" := Str(form.email),
        "password" := Str(form.password), "company_name" := Str(form.companyName)]
  }

  /**
   * `handleRegister`: spread the form, set `role` and `client_profile`, then
   * delete the root `company_name`.
   */
  method BuildPayload(form: RegisterForm) returns (payload: map<string, Json>)
    ensures payload.Keys == {"username", "email", "password", "role", "client_profile"}
    ensures payload["role"] == Str("CLIENT")
    ensures payload["client_profile"] == Obj(map["company_name" := Str(form.companyName)])
    ensures payload["username"] == Str(form.username)
    ensures payload["email"] == Str(form.email)
    ensures payload["password"] == Str(form.password)
    ensures "company_name" !in payload
  {
    payload := FormObject(form);
    payload := payload["role" := Str("CLIENT")];
    payload := payload["client_profile" := Obj(map["company_name" := FormObject(form)["company_name"]])];
    payload := payload - {"company_name"};
  }
}
