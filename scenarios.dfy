/** Clients of the coordinator that run join scenarios through nothing but
    the coordinator's contracts: two replay the module's tests, one shows
    what the code does with a second member. */
module LiveSessionsScenarios {
  import opened Wrappers
  import opened LiveSessions

  /** A guide alone in one session is told to await a member; a member alone
      in another session is told to await a guide. */
  method SingleRoleScenario() returns (first: Advice, second: Advice)
    ensures first == NO_MEMBER && first.Status() == "no" && first.Reason() == "Awaiting Member"
    ensures second == NO_GUIDE && second.Status() == "no" && second.Reason() == "Awaiting Guide"
  {
    var c := new Coordinator();
    first := c.JoinSession(SessionData(Num(25.0), Some("guide"), Some("1-1-Gopal"), None), "1-1~Gopal~25");
    second := c.JoinSession(SessionData(Num(26.0), Some("member"), Some("1-1-Gopal"), None), "1-1~Gopal~26");
  }

  /** A guide and then a member in the same session: the member's join is
      answered with Ready, carrying both connections' socket ids. */
  method GuideAndMemberScenario() returns (advice: Advice)
    ensures advice == Ready(Some("1-1~Gopal~1234"), Some("1-1~Raja~1235"))
    ensures advice.Status() == "ok" && advice.Reason() == "Ready"
  {
    var c := new Coordinator();
    var _ := c.JoinSession(SessionData(Num(24.0), Some("guide"), Some("1-1-Gopal"), None), "1-1~Gopal~1234");
    advice := c.JoinSession(SessionData(Num(24.0), Some("member"), Some("1-1-Raja"), None), "1-1~Raja~1235");
  }

  /** A second member in the same session takes over the single member
      slot: Ready now carries the later member's socket id only. This is not
      one of the module's tests: the test with two members
      (src/lib/liveSessions.test.js:65-92) joins "guide", "member", "member"
      and expects both members in a `members` map, which the code does not
      build. Here the guide joins as "coach" and the second member with no
      role, to exercise those two paths as well. */
  method SecondMemberScenario() returns (advice: Advice)
    ensures advice == Ready(Some("1-1~Gopal~1234"), Some("1-1~Skanda~1236"))
  {
    var c := new Coordinator();
    var _ := c.JoinSession(SessionData(Num(24.0), Some("coach"), Some("1-1-Gopal"), None), "1-1~Gopal~1234");
    var _ := c.JoinSession(SessionData(Num(24.0), Some("member"), Some("1-1-Raja"), None), "1-1~Raja~1235");
    advice := c.JoinSession(SessionData(Num(24.0), None, Some("1-1-Skanda"), None), "1-1~Skanda~1236");
  }
}
