/** The configuration records the core reads (src/config/item.rs,
    src/config/trigger.rs, src/config/ws.rs), mirrored as plain values, plus
    the older configuration shapes the legacy helpers under src/zabbix/ expect. */
module Config {

  /** Rust's `u8`. */
  newtype uint8 = x: int | 0 <= x < 256

  /** A Zabbix tag attached to created items. */
  datatype Tag = Tag(tag: string, value: string)

  /** `ZabbixItemConfig`: templates for the item key and name (`{}` stands for
      the url) and the item settings copied into every created item. */
  datatype ItemConfig = ItemConfig(
    nameTemplate: string,
    keyTemplate: string,
    interfaceId: string,
    delay: string,
    itemType: uint8,
    valueType: uint8,
    tags: seq<Tag>)

  /** `ZabbixTriggerConfig`: `${HOST}`/`${URL}` templates and fixed settings. */
  datatype TriggerConfig = TriggerConfig(
    name: string,
    priority: uint8,
    problemExpression: string,
    recoveryMode: uint8,
    recoveryExpression: string,
    eventName: string,
    url: string)

  /** `WebScenarioConfig`. */
  datatype WebScenarioConfig = WebScenarioConfig(
    keyStartsWith: string,
    nameTemplate: string,
    responseTimeout: string,
    expectStatusCode: string,
    attempts: uint8,
    updateInterval: string)

  /** The Zabbix API generation the legacy login speaks to. */
  datatype ApiVersion = V5 | V6

  /** The trigger settings the legacy trigger helper reads: a name template
      and an expression template (`trigger.value`). */
  datatype LegacyTriggerConfig = LegacyTriggerConfig(name: string, value: string)

  /** The web-scenario settings the legacy helpers read (`scenario_config.name`
      is a `${HOST}`/`${URL}` template). */
  datatype LegacyScenarioConfig = LegacyScenarioConfig(
    name: string,
    expectStatusCode: string,
    updateInterval: string,
    attempts: uint8)
}
