/** Topic management (app/perception_agent/tools/agent_2_tools.py): structural
    validation of a topic and the create/update stubs, which merge the caller's
    fields over a generated or given topic id. */
module Topics {
  import opened Json

  const NameRequired := "Topic name is required"
  const KeywordRequired := "At least one keyword is required"
  const GeneratedId := "generated_id"

  datatype TopicValidation = TopicValidation(valid: bool, errors: seq<string>)

  /** `validate_topic_structure`: a name error, then a keyword error, each when
      the field is missing or falsy. */
  function ValidateTopicStructure(topic: Record): (r: TopicValidation)
    ensures r.valid <==> r.errors == []
    ensures |r.errors| <= 2
    ensures NameRequired in r.errors <==> !Truthy(Get(topic, "name", Null))
    ensures KeywordRequired in r.errors <==> !Truthy(Get(topic, "keywords", Null))
    ensures |r.errors| == 2 ==> r.errors == [NameRequired, KeywordRequired]
    ensures forall e :: e in r.errors ==> e == NameRequired || e == KeywordRequired
  {
    var errors :=
      (if !Truthy(Get(topic, "name", Null)) then [NameRequired] else [])
      + (if !Truthy(Get(topic, "keywords", Null)) then [KeywordRequired] else []);
    TopicValidation(|errors| == 0, errors)
  }

  /** A topic is valid exactly when it has a truthy name and truthy keywords. */
  lemma ValidTopic(topic: Record)
    ensures ValidateTopicStructure(topic).valid <==>
      Truthy(Get(topic, "name", Null)) && Truthy(Get(topic, "keywords", Null))
  {
    var r := ValidateTopicStructure(topic);
    if !Truthy(Get(topic, "name", Null)) {
      assert NameRequired in r.errors;
    }
    if !Truthy(Get(topic, "keywords", Null)) {
      assert KeywordRequired in r.errors;
    }
  }

  /** `get_active_topics`: the stub knows no topics. */
  function GetActiveTopics(userId: string): (r: seq<Record>)
    ensures r == []
  {
    []
  }

  /** `create_topic`: `{"topic_id": "generated_id", **topic_data}`. */
  function CreateTopic(userId: string, topicData: Record): (r: Record)
    ensures r.Keys == topicData.Keys + {"topic_id"}
    ensures forall k :: k in topicData ==> r[k] == topicData[k]
    ensures "topic_id" !in topicData ==> r["topic_id"] == Str(GeneratedId)
  {
    map["topic_id" := Str(GeneratedId)] + topicData
  }

  /** `update_topic`: `{"topic_id": topic_id, **updates}`. */
  function UpdateTopic(userId: string, topicId: string, updates: Record): (r: Record)
    ensures r.Keys == updates.Keys + {"topic_id"}
    ensures forall k :: k in updates ==> r[k] == updates[k]
    ensures "topic_id" !in updates ==> r["topic_id"] == Str(topicId)
  {
    map["topic_id" := Str(topicId)] + updates
  }

  /** Updating with no fields yields just the id; updating with the fields of a
      created topic reproduces that topic under the new id, unless the fields
      carry their own id. */
  lemma UpdateOfCreated(userId: string, topicId: string, topicData: Record)
    requires "topic_id" !in topicData
    ensures UpdateTopic(userId, topicId, map[]) == map["topic_id" := Str(topicId)]
    ensures UpdateTopic(userId, topicId, CreateTopic(userId, topicData)) == CreateTopic(userId, topicData)
    ensures UpdateTopic(userId, topicId, topicData) == CreateTopic(userId, topicData)["topic_id" := Str(topicId)]
  {
    var u := UpdateTopic(userId, topicId, topicData);
    var c := CreateTopic(userId, topicData)["topic_id" := Str(topicId)];
    assert u.Keys == c.Keys;
    assert forall k :: k in u ==> u[k] == c[k];
  }

  /** `delete_topic`: the stub always reports success. */
  function DeleteTopic(userId: string, topicId: string): (r: bool)
    ensures r
  {
    true
  }
}
