/**
  The Gemini agent and its builder. The builder holds three optional strings;
  `Build` first acquires an auth provider, then checks the fields in the order
  project, location, endpoint, naming the first one that is missing.
 */
module Gemini {
  import opened Wrappers
  import Text

  const ModelName := "gemini-pro"

  /** The errors of building an agent; `GCPAuth` carries the provider failure's message. */
  datatype GemineAgentError =
    | AgentBuilderMissing(field: string)
    | GCPAuth(reason: string)

  /** A built agent; `P` is the token provider it was built with. */
  datatype GeminiAgent<P> = GeminiAgent(projectId: string, locationId: string, apiEndpoint: string,
                                        gcpProvider: P)
  {
    /**
      The count-tokens endpoint of the agent's project and location: the
      scheme followed by the URL's path segments joined with '/'.
     */
    function GetUrl(): (url: string)
      ensures url == Scheme + Text.Join(UrlPath(apiEndpoint, projectId, locationId), "/")
    {
      TemplateIsSegments(apiEndpoint, projectId, locationId);
      Scheme + apiEndpoint + "/v1beta1/projects/" + projectId + "/locations/" + locationId
        + "/publishers/google/models/" + ModelName + ":countTokens"
    }
  }

  const Scheme := "https://"

  /** The '/'-separated segments of the count-tokens URL after the scheme, in order. */
  function UrlPath(apiEndpoint: string, projectId: string, locationId: string): seq<string> {
    [apiEndpoint, "v1beta1", "projects", projectId, "locations", locationId,
     "publishers", "google", "models", ModelName + ":countTokens"]
  }

  datatype GeminiAgentBuilder = GeminiAgentBuilder(projectId: Option<string>, locationId: Option<string>,
                                                   apiEndpoint: Option<string>)
  {
    function ProjectId(v: string): (b: GeminiAgentBuilder)
      ensures b.projectId == Some(v)
      ensures b.locationId == locationId && b.apiEndpoint == apiEndpoint
    {
      this.(projectId := Some(v))
    }

    function LocationId(v: string): (b: GeminiAgentBuilder)
      ensures b.locationId == Some(v)
      ensures b.projectId == projectId && b.apiEndpoint == apiEndpoint
    {
      this.(locationId := Some(v))
    }

    function ApiEndpoint(v: string): (b: GeminiAgentBuilder)
      ensures b.apiEndpoint == Some(v)
      ensures b.projectId == projectId && b.locationId == locationId
    {
      this.(apiEndpoint := Some(v))
    }

    /** The names of the unset fields, in the order `Build` checks them. */
    function MissingFields(): seq<string> {
      (if projectId.None? then ["project_id"] else [])
      + (if locationId.None? then ["location_id"] else [])
      + (if apiEndpoint.None? then ["api_endpoint"] else [])
    }

    /**
      `acquire` is the outcome of asking for an auth provider. Its failure wins
      over any missing field; otherwise the first missing field is named; with
      every field set the agent holds exactly the values supplied.
     */
    function Build<P>(acquire: Result<P, string>): (r: Result<GeminiAgent<P>, GemineAgentError>)
      ensures acquire.Err? ==> r == Err(GCPAuth(acquire.error))
      ensures acquire.Ok? && MissingFields() != [] ==> r == Err(AgentBuilderMissing(MissingFields()[0]))
      ensures r.Ok? <==> acquire.Ok? && MissingFields() == []
      ensures r.Ok? ==> r.value == GeminiAgent(projectId.value, locationId.value, apiEndpoint.value,
                                               acquire.value)
    {
      match acquire
      case Err(why) => Err(GCPAuth(why))
      case Ok(provider) =>
        match projectId
        case None => Err(AgentBuilderMissing("project_id"))
        case Some(project) =>
          match locationId
          case None => Err(AgentBuilderMissing("location_id"))
          case Some(location) =>
            match apiEndpoint
            case None => Err(AgentBuilderMissing("api_endpoint"))
            case Some(endpoint) => Ok(GeminiAgent(project, location, endpoint, provider))
    }
  }

  /** `GeminiAgent::new`: a builder with every field unset. */
  function NewBuilder(): (b: GeminiAgentBuilder)
    ensures b.projectId.None? && b.locationId.None? && b.apiEndpoint.None?
  {
    GeminiAgentBuilder(None, None, None)
  }

  /** A fresh builder misses every field, in checking order. */
  lemma NewBuilderMissesAll()
    ensures NewBuilder().MissingFields() == ["project_id", "location_id", "api_endpoint"]
  {
  }

  /** Setters on different fields commute; a later call on the same field overwrites an earlier one. */
  lemma SettersCommute(b: GeminiAgentBuilder, p: string, l: string, e: string)
    ensures b.ProjectId(p).LocationId(l) == b.LocationId(l).ProjectId(p)
    ensures b.ProjectId(p).ApiEndpoint(e) == b.ApiEndpoint(e).ProjectId(p)
    ensures b.LocationId(l).ApiEndpoint(e) == b.ApiEndpoint(e).LocationId(l)
  {
  }

  lemma LaterSetterWins(b: GeminiAgentBuilder, v: string, w: string)
    ensures b.ProjectId(v).ProjectId(w) == b.ProjectId(w)
    ensures b.LocationId(v).LocationId(w) == b.LocationId(w)
    ensures b.ApiEndpoint(v).ApiEndpoint(w) == b.ApiEndpoint(w)
  {
  }

  /** Setting all three fields, in any order, leaves nothing missing. */
  lemma AllSetMissesNothing(b: GeminiAgentBuilder, p: string, l: string, e: string)
    ensures b.ProjectId(p).LocationId(l).ApiEndpoint(e).MissingFields() == []
    ensures b.ApiEndpoint(e).LocationId(l).ProjectId(p).MissingFields() == []
  {
  }

  /** A field is reported missing exactly when it is unset. */
  lemma MissingFieldsExact(b: GeminiAgentBuilder)
    ensures "project_id" in b.MissingFields() <==> b.projectId.None?
    ensures "location_id" in b.MissingFields() <==> b.locationId.None?
    ensures "api_endpoint" in b.MissingFields() <==> b.apiEndpoint.None?
  {
  }

  /**
    The builder tests, for any outcome of provider acquisition that succeeds:
    all fields set builds an agent holding them; leaving out exactly one field
    fails naming that field.
   */
  lemma BuilderTests<P>(provider: P)
    ensures var r := NewBuilder().ProjectId("project_id").LocationId("location_id")
                      .ApiEndpoint("api_endpoint").Build(Ok(provider));
      r == Ok(GeminiAgent("project_id", "location_id", "api_endpoint", provider))
    ensures NewBuilder().LocationId("location_id").ApiEndpoint("api_endpoint").Build(Ok(provider))
            == Err(AgentBuilderMissing("project_id"))
    ensures NewBuilder().ProjectId("project_id").ApiEndpoint("api_endpoint").Build(Ok(provider))
            == Err(AgentBuilderMissing("location_id"))
    ensures NewBuilder().ProjectId("project_id").LocationId("location_id").Build(Ok(provider))
            == Err(AgentBuilderMissing("api_endpoint"))
  {
  }

  /** The count-tokens template spells the scheme followed by its segments joined with '/'. */
  lemma TemplateIsSegments(e: string, p: string, l: string)
    ensures Scheme + e + "/v1beta1/projects/" + p + "/locations/" + l + "/publishers/google/models/"
            + ModelName + ":countTokens" == Scheme + Text.Join(UrlPath(e, p, l), "/")
  {
    var t := ModelName + ":countTokens";
    JoinTen(e, "v1beta1", "projects", p, "locations", l, "publishers", "google", "models", t);
    ProjectsInfix(p + ("/locations/" + (l + ("/publishers/google/models/" + t))));
    LocationsInfix(l + ("/publishers/google/models/" + t));
    ModelsInfix(t);
    Regroup(Scheme, e, "/v1beta1/projects/", p, "/locations/", l, "/publishers/google/models/", t);
  }

  /**
    The segments of the URL read back out of it, so for slash-free values the
    URL determines the endpoint, project and location, and its last segment
    names the model.
   */
  lemma GetUrlReadsBack<P>(agent: GeminiAgent<P>)
    requires Text.NoSlash(agent.apiEndpoint) && Text.NoSlash(agent.projectId)
    requires Text.NoSlash(agent.locationId)
    ensures agent.GetUrl()[..|Scheme|] == Scheme
    ensures Text.Split(agent.GetUrl()[|Scheme|..], "/")
            == UrlPath(agent.apiEndpoint, agent.projectId, agent.locationId)
  {
    var path := UrlPath(agent.apiEndpoint, agent.projectId, agent.locationId);
    assert agent.GetUrl()[|Scheme|..] == Text.Join(path, "/");
    assert Text.NoSlash(ModelName + ":countTokens");
    Text.SplitOfSlashJoin(path);
  }

  /** Agents with slash-free fields have the same URL exactly when they agree on all three. */
  lemma GetUrlInjective<P>(a: GeminiAgent<P>, b: GeminiAgent<P>)
    requires Text.NoSlash(a.apiEndpoint) && Text.NoSlash(a.projectId) && Text.NoSlash(a.locationId)
    requires Text.NoSlash(b.apiEndpoint) && Text.NoSlash(b.projectId) && Text.NoSlash(b.locationId)
    ensures a.GetUrl() == b.GetUrl() <==>
            a.apiEndpoint == b.apiEndpoint && a.projectId == b.projectId && a.locationId == b.locationId
  {
    GetUrlReadsBack(a);
    GetUrlReadsBack(b);
    if a.GetUrl() == b.GetUrl() {
      assert UrlPath(a.apiEndpoint, a.projectId, a.locationId)
          == UrlPath(b.apiEndpoint, b.projectId, b.locationId);
    }
  }

  // Rewriting the template's literal pieces as joined segments

  lemma JoinTen(a0: string, a1: string, a2: string, a3: string, a4: string,
                a5: string, a6: string, a7: string, a8: string, a9: string)
    ensures Text.Join([a0, a1, a2, a3, a4, a5, a6, a7, a8, a9], "/")
      == a0 + ("/" + (a1 + ("/" + (a2 + ("/" + (a3 + ("/" + (a4 + ("/" + (a5 + ("/" + (a6
         + ("/" + (a7 + ("/" + (a8 + ("/" + a9)))))))))))))))))
  {
    var s9 := [a9];
    var s8 := [a8] + s9;
    var s7 := [a7] + s8;
    var s6 := [a6] + s7;
    var s5 := [a5] + s6;
    var s4 := [a4] + s5;
    var s3 := [a3] + s4;
    var s2 := [a2] + s3;
    var s1 := [a1] + s2;
    var s0 := [a0] + s1;
    Text.JoinCons(a8, s9, "/");
    Text.JoinCons(a7, s8, "/");
    Text.JoinCons(a6, s7, "/");
    Text.JoinCons(a5, s6, "/");
    Text.JoinCons(a4, s5, "/");
    Text.JoinCons(a3, s4, "/");
    Text.JoinCons(a2, s3, "/");
    Text.JoinCons(a1, s2, "/");
    Text.JoinCons(a0, s1, "/");
    assert s0 == [a0, a1, a2, a3, a4, a5, a6, a7, a8, a9];
  }

  lemma ProjectsInfix(x: string)
    ensures "/" + ("v1beta1" + ("/" + ("projects" + ("/" + x)))) == "/v1beta1/projects/" + x
  {
  }

  lemma LocationsInfix(x: string)
    ensures "/" + ("locations" + ("/" + x)) == "/locations/" + x
  {
  }

  lemma ModelsInfix(x: string)
    ensures "/" + ("publishers" + ("/" + ("google" + ("/" + ("models" + ("/" + x))))))
            == "/publishers/google/models/" + x
  {
  }

  lemma Regroup(a0: string, a1: string, a2: string, a3: string, a4: string, a5: string, a6: string,
                a7: string)
    ensures a0 + (a1 + (a2 + (a3 + (a4 + (a5 + (a6 + a7)))))) == a0 + a1 + a2 + a3 + a4 + a5 + a6 + a7
  {
  }
}
