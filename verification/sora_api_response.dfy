/** `SoraApiResponse`: the provider's job record as parsed, a mutable bean with
    seven fields. `result` refers to a `SoraVideo` (only a `url`) and
    `generations` to a list of `Generation` objects (only an `id`); both nested
    beans are objects of their own, so changing one is seen through the record. */
module SoraApiResponseModel {
  import opened Common

  datatype VideoState = VideoState(url: Option<string>)
  datatype GenerationState = GenerationState(id: Option<string>)

  /** The record with its nested beans read out as values. `result` and
      `generations` are independent: either, both or neither may be present. */
  datatype ApiState = ApiState(
    id: Option<string>,
    status: Option<string>,
    model: Option<string>,
    createdAt: Option<string>,
    expiresAt: Option<string>,
    result: Option<VideoState>,
    generations: Option<seq<GenerationState>>)

  class SoraVideo {
    var url: Option<string>

    constructor ()
      ensures url == None
    {
      url := None;
    }

    method SetUrl(url: Option<string>)
      modifies this
      ensures this.url == url
    {
      this.url := url;
    }
  }

  class Generation {
    var id: Option<string>

    constructor ()
      ensures id == None
    {
      id := None;
    }

    method SetId(id: Option<string>)
      modifies this
      ensures this.id == id
    {
      this.id := id;
    }
  }

  function VideoStateOf(v: SoraVideo?): (r: Option<VideoState>)
    reads v
    ensures r.None? <==> v == null
  {
    if v == null then None else Some(VideoState(v.url))
  }

  function GenerationStates(gs: seq<Generation>): (r: seq<GenerationState>)
    reads gs
    ensures |r| == |gs|
    ensures forall i :: 0 <= i < |gs| ==> r[i] == GenerationState(gs[i].id)
  {
    if gs == [] then [] else [GenerationState(gs[0].id)] + GenerationStates(gs[1..])
  }

  function GenerationsStateOf(gs: Option<seq<Generation>>): (r: Option<seq<GenerationState>>)
    reads if gs.Some? then gs.value else []
    ensures r.None? <==> gs.None?
  {
    if gs.None? then None else Some(GenerationStates(gs.value))
  }

  class SoraApiResponse {
    var id: Option<string>
    var status: Option<string>
    var model: Option<string>
    var createdAt: Option<string>
    var expiresAt: Option<string>
    var result: SoraVideo?
    var generations: Option<seq<Generation>>

    /** The objects the record's value depends on. */
    function Footprint(): set<object>
      reads this
    {
      {this} + (if result == null then {} else {result})
        + (if generations.None? then {} else set g | g in generations.value)
    }

    function State(): ApiState
      reads Footprint()
    {
      ApiState(id, status, model, createdAt, expiresAt,
               VideoStateOf(result), GenerationsStateOf(generations))
    }

    /** The no-argument constructor: every field null. */
    constructor ()
      ensures State() == ApiState(None, None, None, None, None, None, None)
      ensures result == null && generations == None
    {
      id, status, model, createdAt, expiresAt := None, None, None, None, None;
      result, generations := null, None;
    }

    method SetId(id: Option<string>)
      modifies this
      ensures State() == old(State()).(id := id)
    {
      this.id := id;
    }

    method SetStatus(status: Option<string>)
      modifies this
      ensures State() == old(State()).(status := status)
    {
      this.status := status;
    }

    method SetModel(model: Option<string>)
      modifies this
      ensures State() == old(State()).(model := model)
    {
      this.model := model;
    }

    method SetCreatedAt(createdAt: Option<string>)
      modifies this
      ensures State() == old(State()).(createdAt := createdAt)
    {
      this.createdAt := createdAt;
    }

    method SetExpiresAt(expiresAt: Option<string>)
      modifies this
      ensures State() == old(State()).(expiresAt := expiresAt)
    {
      this.expiresAt := expiresAt;
    }

    method SetResult(result: SoraVideo?)
      modifies this
      ensures this.result == result
      ensures State() == old(State()).(result := VideoStateOf(result))
    {
      this.result := result;
    }

    method SetGenerations(generations: Option<seq<Generation>>)
      modifies this
      ensures this.generations == generations
      ensures State() == old(State()).(generations := GenerationsStateOf(generations))
    {
      this.generations := generations;
    }
  }
}
