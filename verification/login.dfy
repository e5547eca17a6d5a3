/** src/components/LoginScreen.jsx: the fixed password-to-role table. */
module Login {
  import opened Model

  const MotoristaPassword := "123"
  const MasterPassword := "master123"
  const AdmPassword := "adm123"

  /** The role the submitted password logs in as, tried in the order
      motorista, master, adm; None when it matches none of them. */
  function RoleForPassword(password: string): (role: Option<string>)
    ensures role == Some("motorista") <==> password == MotoristaPassword
    ensures role == Some("master") <==> password == MasterPassword
    ensures role == Some("adm") <==> password == AdmPassword
    ensures role.None? <==> password !in {MotoristaPassword, MasterPassword, AdmPassword}
  {
    if password == MotoristaPassword then Some("motorista")
    else if password == MasterPassword then Some("master")
    else if password == AdmPassword then Some("adm")
    else None
  }

  /** The login form's state. */
  class LoginScreen {
    var password: string
    var isLoading: bool

    constructor ()
      ensures password == "" && !isLoading
    {
      password := "";
      isLoading := false;
    }

    /** `handleSubmit` once its delay has elapsed: at most one login with
        the matched role, then the field is cleared and loading ends. */
    method HandleSubmit() returns (login: Option<string>)
      modifies this
      ensures login == RoleForPassword(old(password))
      ensures password == "" && !isLoading
    {
      isLoading := true;
      if password == MotoristaPassword {
        login := Some("motorista");
      } else if password == MasterPassword {
        login := Some("master");
      } else if password == AdmPassword {
        login := Some("adm");
      } else {
        login := None;
      }
      isLoading := false;
      password := "";
    }
  }
}
