/**
 * The agent directory behind POST and GET on the agents route: creation
 * rejects an email already on file and stores only the hashed password;
 * listing returns every stored agent, which is the pool uploads distribute to.
 */
module AgentDirectory {
  import opened Wrappers

  datatype Agent = Agent(id: ObjectId, name: string, email: string, mobile: string, password: string)

  /** The stored agents, in the order the store returns them. */
  type Directory = seq<Agent>

  /** A creation request body. */
  datatype Signup = Signup(name: string, email: string, mobile: string, password: string)

  const AlreadyExists: string := "Agent already exists"

  ghost predicate DistinctIds(pool: seq<Agent>) {
    forall i, j :: 0 <= i < j < |pool| ==> pool[i].id != pool[j].id
  }

  ghost predicate DistinctEmails(pool: seq<Agent>) {
    forall i, j :: 0 <= i < j < |pool| ==> pool[i].email != pool[j].email
  }

  ghost predicate WellFormed(dir: Directory) {
    DistinctIds(dir) && DistinctEmails(dir)
  }

  /** The first agent with the given email, as a find-one query on email returns it. */
  function FindByEmail(dir: Directory, email: string): (r: Option<Agent>)
    ensures r.Some? <==> exists a :: a in dir && a.email == email
    ensures r.Some? ==> r.value in dir && r.value.email == email
  {
    if |dir| == 0 then None
    else if dir[0].email == email then Some(dir[0])
    else FindByEmail(dir[1..], email)
  }

  /** An identifier no stored agent has. */
  function FreshId(dir: Directory): (id: ObjectId)
    ensures forall a :: a in dir ==> a.id < id
  {
    if |dir| == 0 then 0
    else
      var rest := FreshId(dir[1..]);
      if dir[0].id < rest then rest else dir[0].id + 1
  }

  /**
   * Creating an agent. `hash` stands for the password-hashing function. A
   * request whose email is already on file is refused and leaves the
   * directory as it was; otherwise exactly one agent, holding the given name,
   * email and mobile and the hash of the password, is appended.
   */
  function CreateAgent(dir: Directory, req: Signup, hash: string -> string): (r: (Result<Agent, string>, Directory))
    ensures r.0.Err? <==> exists a :: a in dir && a.email == req.email
    ensures r.0.Err? ==> r.0.error == AlreadyExists && r.1 == dir
    ensures r.0.Ok? ==> r.1 == dir + [r.0.value]
    ensures r.0.Ok? ==>
      && r.0.value.name == req.name
      && r.0.value.email == req.email
      && r.0.value.mobile == req.mobile
      && r.0.value.password == hash(req.password)
    ensures r.0.Ok? ==> forall a :: a in dir ==> a.id != r.0.value.id
  {
    if FindByEmail(dir, req.email).Some? then
      (Err(AlreadyExists), dir)
    else
      var agent := Agent(FreshId(dir), req.name, req.email, req.mobile, hash(req.password));
      (Ok(agent), dir + [agent])
  }

  /** One creation keeps emails and identifiers pairwise distinct. */
  lemma CreatePreservesWellFormed(dir: Directory, req: Signup, hash: string -> string)
    requires WellFormed(dir)
    ensures WellFormed(CreateAgent(dir, req, hash).1)
  {
    var r := CreateAgent(dir, req, hash);
    if r.0.Ok? {
      var d := r.1;
      forall i, j | 0 <= i < j < |d|
        ensures d[i].email != d[j].email && d[i].id != d[j].id
      {
        if j == |dir| {
          assert d[i] == dir[i];
          assert dir[i] in dir;
        } else {
          assert d[i] == dir[i] && d[j] == dir[j];
        }
      }
    }
  }

  /** The directory after the given creation requests, handled one at a time. */
  function CreateAll(dir: Directory, reqs: seq<Signup>, hash: string -> string): Directory
    decreases |reqs|
  {
    if |reqs| == 0 then dir else CreateAll(CreateAgent(dir, reqs[0], hash).1, reqs[1..], hash)
  }

  /** Any run of sequential creations starting from a well-formed directory keeps emails pairwise distinct. */
  lemma {:induction false} CreateAllPreservesWellFormed(dir: Directory, reqs: seq<Signup>, hash: string -> string)
    requires WellFormed(dir)
    ensures WellFormed(CreateAll(dir, reqs, hash))
    decreases |reqs|
  {
    if |reqs| > 0 {
      CreatePreservesWellFormed(dir, reqs[0], hash);
      CreateAllPreservesWellFormed(CreateAgent(dir, reqs[0], hash).1, reqs[1..], hash);
    }
  }

  /** Listing: every stored agent. This is the pool an upload snapshots. */
  function ListAgents(dir: Directory): seq<Agent> {
    dir
  }

  /** An agent that was just created is the last member of the next pool, after all earlier agents. */
  lemma CreatedAgentJoinsPool(dir: Directory, req: Signup, hash: string -> string)
    requires CreateAgent(dir, req, hash).0.Ok?
    ensures ListAgents(CreateAgent(dir, req, hash).1) == ListAgents(dir) + [CreateAgent(dir, req, hash).0.value]
  {
  }
}
