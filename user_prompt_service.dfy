/**
 * The prompt-optimization configurations a user keeps per prompt type, and the service that
 * saves, deletes, enables and disables them. The database table is the map `configs`, keyed by
 * configuration id; the mapper's statements are the functions below.
 */
module UserPrompts {
  import opened Wrappers

  /** A stored configuration (UserPromptConfig); `systemPrompt` is its optimization prompt. */
  datatype UserPromptConfig = UserPromptConfig(
    id: string,
    name: Option<string>,
    promptType: Option<string>,
    agentId: Option<int>,
    systemPrompt: Option<string>,
    enabled: Option<bool>,
    description: Option<string>,
    priority: Option<int>,
    displayOrder: Option<int>,
    creator: Option<string>)

  /** The request to save a configuration (PromptConfigDTO); a null id asks for a new one. */
  datatype PromptConfigDTO = PromptConfigDTO(
    id: Option<string>,
    name: Option<string>,
    promptType: Option<string>,
    agentId: Option<int>,
    optimizationPrompt: Option<string>,
    enabled: Option<bool>,
    description: Option<string>,
    creator: Option<string>,
    priority: Option<int>,
    displayOrder: Option<int>)

  /** A null priority or display order is stored as 0. */
  function OrZero(n: Option<int>): (r: Option<int>)
    ensures r.Some?
    ensures n.Some? ==> r == n
    ensures n.None? ==> r == Some(0)
  {
    Some(n.UnwrapOr(0))
  }

  /** The configuration a save creates under `id`: every field from the request, numbers defaulted to 0. */
  function NewConfig(dto: PromptConfigDTO, id: string): (c: UserPromptConfig)
    ensures c.id == id && c.promptType == dto.promptType && c.creator == dto.creator
    ensures c.systemPrompt == dto.optimizationPrompt && c.enabled == dto.enabled
    ensures c.priority.Some? && c.displayOrder.Some?
  {
    UserPromptConfig(id, dto.name, dto.promptType, dto.agentId, dto.optimizationPrompt, dto.enabled,
                     dto.description, OrZero(dto.priority), OrZero(dto.displayOrder), dto.creator)
  }

  /**
   * The loaded configuration with the request's editable fields set on it: name, agent,
   * prompt, enabled flag, description and the numbers change; the id, the prompt type and the
   * creator stay.
   */
  function EditedConfig(current: UserPromptConfig, dto: PromptConfigDTO): (c: UserPromptConfig)
    ensures c.id == current.id && c.promptType == current.promptType && c.creator == current.creator
    ensures c.name == dto.name && c.agentId == dto.agentId && c.systemPrompt == dto.optimizationPrompt
    ensures c.enabled == dto.enabled && c.description == dto.description
    ensures c.priority == OrZero(dto.priority) && c.displayOrder == OrZero(dto.displayOrder)
  {
    current.(name := dto.name, agentId := dto.agentId, systemPrompt := dto.optimizationPrompt,
             enabled := dto.enabled, description := dto.description,
             priority := OrZero(dto.priority), displayOrder := OrZero(dto.displayOrder))
  }

  /**
   * The row updateById leaves: every non-null field of the written object replaces the stored
   * one; a null field leaves the stored value (the creator is never written).
   */
  function UpdatedRow(stored: UserPromptConfig, written: UserPromptConfig): (r: UserPromptConfig)
    ensures r.id == stored.id && r.creator == stored.creator
    ensures written.name.Some? ==> r.name == written.name
    ensures written.name.None? ==> r.name == stored.name
    ensures written.enabled.Some? ==> r.enabled == written.enabled
    ensures written.enabled.None? ==> r.enabled == stored.enabled
  {
    stored.(name := written.name.Or(stored.name), promptType := written.promptType.Or(stored.promptType),
            agentId := written.agentId.Or(stored.agentId), systemPrompt := written.systemPrompt.Or(stored.systemPrompt),
            enabled := written.enabled.Or(stored.enabled), description := written.description.Or(stored.description),
            priority := written.priority.Or(stored.priority), displayOrder := written.displayOrder.Or(stored.displayOrder))
  }

  /**
   * Updating an existing configuration never changes its prompt type or its creator, and a
   * field the request leaves null keeps the stored value.
   */
  lemma UpdateKeepsTypeAndCreator(stored: UserPromptConfig, dto: PromptConfigDTO)
    ensures var r := UpdatedRow(stored, EditedConfig(stored, dto));
            r.promptType == stored.promptType && r.creator == stored.creator && r.id == stored.id
            && (dto.name.None? ==> r.name == stored.name)
            && (dto.optimizationPrompt.None? ==> r.systemPrompt == stored.systemPrompt)
            && r.priority == OrZero(dto.priority) && r.displayOrder == OrZero(dto.displayOrder)
  {
  }

  /** enableById / disableById on one row. */
  function WithEnabled(c: UserPromptConfig, enabled: bool): (r: UserPromptConfig)
    ensures r.enabled == Some(enabled) && r.(enabled := c.enabled) == c
  {
    c.(enabled := Some(enabled))
  }

  class UserPromptService {
    /** The user_prompt_config table, by id. */
    var configs: map<string, UserPromptConfig>

    /** Every row is stored under its own id. */
    ghost predicate Valid()
      reads this
    {
      forall id :: id in configs ==> configs[id].id == id
    }

    constructor()
      ensures configs == map[] && Valid()
    {
      configs := map[];
    }

    /**
     * saveOrUpdateConfig: an id found in the table updates that row (prompt type and creator
     * untouched); an id not found is inserted under that same id; no id inserts under a fresh
     * one (`freshId`, the random UUID). A saved configuration whose flag is true is then enabled.
     */
    method SaveOrUpdateConfig(configDTO: PromptConfigDTO, freshId: string) returns (config: UserPromptConfig)
      requires Valid()
      requires configDTO.id.None? ==> freshId !in configs
      modifies this
      ensures Valid()
      ensures configDTO.id.Some? ==> config.id == configDTO.id.value
      ensures configDTO.id.None? ==> config == NewConfig(configDTO, freshId)
      ensures configDTO.id.Some? && configDTO.id.value !in old(configs) ==> config == NewConfig(configDTO, configDTO.id.value)
      ensures configDTO.id.Some? && configDTO.id.value in old(configs) ==>
                config == EditedConfig(old(configs)[configDTO.id.value], configDTO)
                && configs == old(configs)[config.id := UpdatedRow(old(configs)[config.id], config)]
      ensures configDTO.id.None? || configDTO.id.value !in old(configs) ==>
                configs == old(configs)[config.id := config] && config.id !in old(configs)
      ensures configs.Keys == old(configs).Keys + {config.id}
      ensures config.enabled == Some(true) ==> configs[config.id].enabled == Some(true)
    {
      if configDTO.id.Some? {
        var id := configDTO.id.value;
        if id in configs {
          config := EditedConfig(configs[id], configDTO);
          configs := configs[id := UpdatedRow(configs[id], config)];
        } else {
          config := NewConfig(configDTO, id);
          configs := configs[id := config];
        }
      } else {
        config := NewConfig(configDTO, freshId);
        configs := configs[freshId := config];
      }
      if config.enabled == Some(true) {
        configs := configs[config.id := WithEnabled(configs[config.id], true)];
      }
    }

    /** deleteConfig: removes the row and answers true, or answers false when the id is unknown. */
    method DeleteConfig(id: string) returns (deleted: bool)
      requires Valid()
      modifies this
      ensures Valid()
      ensures deleted <==> id in old(configs)
      ensures configs == old(configs) - {id}
    {
      if id in configs {
        configs := configs - {id};
        deleted := true;
      } else {
        deleted := false;
      }
    }

    /** enableConfig: sets the flag of a known row and answers true; an unknown id answers false. */
    method EnableConfig(id: string) returns (enabled: bool)
      requires Valid()
      modifies this
      ensures Valid()
      ensures enabled <==> id in old(configs)
      ensures configs == if enabled then old(configs)[id := WithEnabled(old(configs)[id], true)] else old(configs)
    {
      if id in configs {
        configs := configs[id := WithEnabled(configs[id], true)];
        enabled := true;
      } else {
        enabled := false;
      }
    }

    /** disableConfig: clears the flag; true exactly when a row was updated. */
    method DisableConfig(id: string) returns (disabled: bool)
      requires Valid()
      modifies this
      ensures Valid()
      ensures disabled <==> id in old(configs)
      ensures configs == if disabled then old(configs)[id := WithEnabled(old(configs)[id], false)] else old(configs)
    {
      if id in configs {
        configs := configs[id := WithEnabled(configs[id], false)];
        disabled := true;
      } else {
        disabled := false;
      }
    }
  }
}
