/**
 * The `first_user` command (src/blog/management/commands/first_user.py): create a superuser
 * from options or environment variables when none exists yet.
 */
module FirstUser {
  import opened Wrappers
  import opened Blog

  const UsernameVar: string := "DJANGO_SUPERUSER_USERNAME"
  const EmailVar: string := "DJANGO_SUPERUSER_EMAIL"
  const PasswordVar: string := "DJANGO_SUPERUSER_PASSWORD"

  /** Python truthiness of an optional string: `None` and `""` are false. */
  predicate Present(v: Option<string>) {
    v.Some? && v.value != ""
  }

  /** `options.get(name) or os.environ.get(var)`: the option wins when truthy, else the variable (possibly empty or absent). */
  function Credential(option: Option<string>, env: map<string, string>, variable: string): (r: Option<string>)
    ensures Present(option) ==> r == option
    ensures !Present(option) && variable in env ==> r == Some(env[variable])
    ensures !Present(option) && variable !in env ==> r == None
  {
    if Present(option) then option
    else if variable in env then Some(env[variable])
    else None
  }

  /** Whether the events include a `createsuperuser` call. */
  predicate CallsCreateSuperuser(events: seq<Event>) {
    exists k :: 0 <= k < |events| && events[k].CalledCreateSuperuser?
  }

  /** What `call_command("createsuperuser", ...)` did: returned, or raised an exception with a message. */
  datatype CallOutcome = Completed | Raised(message: string)

  /**
   * `Command.handle`. `superuserExists` is the answer of the superuser query; the options are
   * `None` when not given; `env` is the process environment; `createOutcome` is what the
   * `createsuperuser` command does when called.
   */
  function Handle(superuserExists: bool, username: Option<string>, email: Option<string>,
                  password: Option<string>, env: map<string, string>, createOutcome: CallOutcome): (events: seq<Event>)
    ensures var u, e, p := Credential(username, env, UsernameVar), Credential(email, env, EmailVar),
                           Credential(password, env, PasswordVar);
      && (CallsCreateSuperuser(events) <==> !superuserExists && Present(u) && Present(e) && Present(p))
      && (CallsCreateSuperuser(events) ==> events[0] == CalledCreateSuperuser(u.value, e.value, p.value, false))
    ensures |events| == (if CallsCreateSuperuser(events) then 2 else 1)
    ensures events[|events| - 1] ==
      if superuserExists then Wrote(SuperuserExists)
      else if !CallsCreateSuperuser(events) then Wrote(SuperuserMissingArguments)
      else if createOutcome.Completed? then Wrote(SuperuserCreated)
      else Failed(createOutcome.message)
  {
    if !superuserExists then
      var u := Credential(username, env, UsernameVar);
      var e := Credential(email, env, EmailVar);
      var p := Credential(password, env, PasswordVar);
      if Present(u) && Present(e) && Present(p) then
        var call := CalledCreateSuperuser(u.value, e.value, p.value, false);
        var events := match createOutcome
          case Completed => [call, Wrote(SuperuserCreated)]
          case Raised(message) => [call, Failed(message)];
        assert events[0].CalledCreateSuperuser?;
        events
      else
        [Wrote(SuperuserMissingArguments)]
    else
      [Wrote(SuperuserExists)]
  }

  /** With all three options given, the environment plays no part. */
  lemma OptionsOverrideEnvironment(superuserExists: bool, username: Option<string>, email: Option<string>,
                                   password: Option<string>, env1: map<string, string>, env2: map<string, string>,
                                   createOutcome: CallOutcome)
    requires Present(username) && Present(email) && Present(password)
    ensures Handle(superuserExists, username, email, password, env1, createOutcome)
         == Handle(superuserExists, username, email, password, env2, createOutcome)
  {
  }
}
