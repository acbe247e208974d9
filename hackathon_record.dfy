/** The part of a Hackathon document the handlers read and write. The Hackathon model file
    (src/models/Hackathon.js) is not part of this model; only the fields the controllers
    use appear, and `isRegistrationOpen()` is a parameter of the handler that asks it. */
module HackathonRecord {
  import opened Common
  import opened UserModel

  datatype TeamConfig = TeamConfig(minMembers: int, maxMembers: int)

  datatype HackathonSettings = HackathonSettings(autoAcceptTeams: bool, allowTeamNameChange: bool)

  datatype Fee = Fee(amount: real, currency: string)

  /** An entry of `hackathon.coordinators`. */
  datatype CoordinatorAssignment = CoordinatorAssignment(user: UserId, permissions: Permissions, addedAt: Time)

  /** An entry of `hackathon.judges`, copied from the judge's user document. */
  datatype JudgeAssignment = JudgeAssignment(user: UserId, name: string)

  datatype Hackathon = Hackathon(
    organizer: UserId,
    teamConfig: TeamConfig,
    maxTeams: int,
    currentRegistrations: int,
    settings: HackathonSettings,
    registrationFee: Fee,
    coordinators: seq<CoordinatorAssignment>,
    judges: seq<JudgeAssignment>)
}
