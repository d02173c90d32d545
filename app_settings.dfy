/** The user preferences of `src/AppSettingsProvider.tsx` and the global-currency token lookup. */
module AppSettings {
  import opened Primitives

  /** The persisted preferences: hide closed positions, and the chosen global currency name. */
  datatype Settings = Settings(filterClosed: bool, globalCurrency: string)

  /** The values the persisted state starts from. */
  const DefaultSettings: Settings := Settings(false, "usd")

  /** `getGlobalCurrencyToken(chainId)`: looks the chosen currency name up in the object
      `{ usd: USDC[chainId], eth: WETH9[chainId] }` and, when that yields `undefined`, falls back
      to its `usd` entry (which is itself `undefined` on a chain without USDC). */
  function GetGlobalCurrencyToken(settings: Settings, tables: TokenTables, chainId: int): (r: Option<Token>)
    ensures settings.globalCurrency == "eth" && chainId in tables.weth9 ==> r == Some(tables.weth9[chainId])
    ensures !(settings.globalCurrency == "eth" && chainId in tables.weth9) ==> r == Lookup(tables.usdc, chainId)
  {
    var usd := Lookup(tables.usdc, chainId);
    var eth := Lookup(tables.weth9, chainId);
    var named := if settings.globalCurrency == "usd" then usd
                 else if settings.globalCurrency == "eth" then eth
                 else None;
    if named.Some? then named else usd
  }

  /** Under the default preferences nothing is hidden and every chain resolves to its USDC. */
  lemma DefaultsResolveToUsdc(tables: TokenTables, chainId: int)
    ensures !DefaultSettings.filterClosed
    ensures GetGlobalCurrencyToken(DefaultSettings, tables, chainId) == Lookup(tables.usdc, chainId)
  {
  }
}
